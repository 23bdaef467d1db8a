/**
  Normalised scripts: prefix trees of blocks that say how many blocks they span, the trees a
  script comes to, and, by a definition of its own, what blocks must say to be those of a
  script. The two agree (`ScriptTells`).
*/
module NormalForm {
  import opened Machine
  import opened Pratt

  // --- blocks and the trees they spell out ------------------------------------------------------

  datatype BlockKind = Plain | StringLiteral | NullableCall | BracedCall | NullableBracedCall | ScopePath | ScopePathCall

  datatype Block = Block(name: string, size: nat, kind: BlockKind)

  /** Trees side by side. */
  datatype Trees = Nil | Cons(name: string, kind: BlockKind, kids: Trees, rest: Trees)

  function Spell(ts: Trees): seq<Block> {
    match ts
    case Nil => []
    case Cons(name, kind, kids, rest) => Fronted(name, kind, Spell(kids), Spell(rest))
  }

  /** A tree's own block, the blocks below it, and what stands behind it. */
  function Fronted(name: string, kind: BlockKind, below: seq<Block>, behind: seq<Block>): seq<Block> {
    [Block(name, |below| + 1, kind)] + below + behind
  }

  function One(name: string, kind: BlockKind, kids: Trees): Trees { Cons(name, kind, kids, Nil) }

  function Append(a: Trees, b: Trees): Trees { if a.Nil? then b else a.(rest := Append(a.rest, b)) }

  function Count(ts: Trees): nat { if ts.Nil? then 0 else 1 + Count(ts.rest) }

  lemma {:induction false} SpellAppend(a: Trees, b: Trees)
    ensures Spell(Append(a, b)) == Spell(a) + Spell(b) && Count(Append(a, b)) == Count(a) + Count(b)
  {
    if a.Cons? {
      SpellAppend(a.rest, b);
      var top := [Block(a.name, |Spell(a.kids)| + 1, a.kind)];
      assert top + Spell(a.kids) + (Spell(a.rest) + Spell(b)) == top + Spell(a.kids) + Spell(a.rest) + Spell(b);
    }
  }

  lemma SpellOne(name: string, kind: BlockKind, kids: Trees)
    ensures Spell(One(name, kind, kids)) == [Block(name, |Spell(kids)| + 1, kind)] + Spell(kids)
  {}

  // --- scope paths ----------------------------------------------------------------------------------

  const EMPTY_LVALUE: string := "__empty_lvalue"
  const MAX_DOTS: nat := 16
  const MAX_COLONS: nat := 3

  /** `a`, or `a:f:x`: a scope, and perhaps a call `f` with argument `x` inside it. */
  datatype Step = Step(scope: string, call: Option<(string, string)>)

  datatype Path = Path(steps: seq<Step>, fn: Option<string>) | Malformed

  function Pieces(s: string, sep: char): (r: seq<string>)
    ensures |r| > 0
    decreases |s|
  {
    if s == [] then [[]]
    else
      var more := Pieces(s[1..], sep);
      if s[0] == sep then [[]] + more else [[s[0]] + more[0]] + more[1..]
  }

  predicate Separates(c: char) { c == '.' || c == ':' }

  /** An element with nothing in it ends at `i`. */
  predicate EmptyElement(s: string, i: nat)
    requires i <= |s|
  {
    (i == |s| || Separates(s[i])) && (i == 0 || Separates(s[i - 1]))
  }

  predicate HasGap(s: string) { exists i: nat :: i <= |s| && EmptyElement(s, i) }

  /** The steps from the k-th piece on; a function ends the path. */
  function Steps(ps: seq<string>, k: nat, before: seq<Step>): Path
    requires k <= |ps|
    decreases |ps| - k
  {
    if k == |ps| then Path(before, None)
    else
      var cs := Pieces(ps[k], ':');
      if |cs| > MAX_COLONS then Malformed
      else if |cs| == 2 then
        if k + 1 == |ps| then Path(before + [Step(cs[0], None)], Some(cs[1])) else Malformed
      else Steps(ps, k + 1, before + [Step(cs[0], if |cs| == 3 then Some((cs[1], cs[2])) else None)])
  }

  /** A name on its own is the function itself. */
  function SplitPath(lvalue: string): Path {
    var ps := Pieces(lvalue, '.');
    if HasGap(lvalue) || |ps| > MAX_DOTS then Malformed
    else
      match Steps(ps, 0, [])
      case Malformed => Malformed
      case Path(steps, fn) => if fn == None && |steps| == 1 && steps[0].call == None then Path([], Some(lvalue)) else Path(steps, fn)
  }

  // --- the tree of a row --------------------------------------------------------------------------------

  /** Which words are string literals, and the text a word stands for. */
  datatype Reader = Reader(literal: Token -> bool, text: Token -> string)

  datatype Result = Normal(trees: Trees) | Rejects

  function CallKind(nullable: bool, braced: bool): BlockKind {
    if nullable && braced then NullableBracedCall else if nullable then NullableCall else if braced then BracedCall else Plain
  }

  /** The path around what it leads to. */
  function Nest(steps: seq<Step>, scope: BlockKind, inner: Trees): Trees
    decreases |steps|
  {
    if steps == [] then inner else Enter(steps[0], scope, Nest(steps[1..], scope, inner))
  }

  function Enter(x: Step, scope: BlockKind, inner: Trees): Trees {
    One(x.scope, scope, if x.call == None then inner else One(x.call.value.0, ScopePathCall, Append(One(x.call.value.1, Plain, Nil), inner)))
  }

  /** `lvalue = rhs`: the function inside the path, around what was written on the right. */
  function CallTrees(lvalue: string, braced: bool, nullable: bool, kids: Trees): Result {
    if lvalue == "" then Normal(if braced then One(EMPTY_LVALUE, CallKind(false, true), kids) else kids)
    else match SplitPath(lvalue)
      case Malformed => Rejects
      case Path(steps, fn) =>
        var bare := fn == None || fn.value == EMPTY_LVALUE;
        var inner := if bare && !braced then kids else One(if bare then EMPTY_LVALUE else fn.value, CallKind(nullable && !bare, braced), kids);
        Normal(Nest(steps, if nullable && bare then NullableCall else ScopePath, inner))
  }

  /** Assignment is written with these two operators. */
  predicate Assigns(t: Token) { t.text == "=" || t.text == "?=" }

  function UnaryName(t: Token): string { if t.text == "-" then "unary_minus" else if t.text == "+" then "unary_plus" else t.text }

  function ExprTrees(r: Reader, e: Expr): Result
    decreases e, 1
  {
    match e
    case Leaf(t) => Normal(One(r.text(t), if r.literal(t) then StringLiteral else Plain, Nil))
    case Unary(op, x, _) =>
      if Assigns(op) then Rejects
      else (match ExprTrees(r, x) case Rejects => Rejects case Normal(kids) => Normal(One(UnaryName(op), Plain, kids)))
    case Binary(op, x, y) =>
      if Assigns(op) then Rejects
      else (match ExprTrees(r, x)
            case Rejects => Rejects
            case Normal(a) => (match ExprTrees(r, y) case Rejects => Rejects case Normal(b) => Normal(One(op.text, Plain, Append(a, b)))))
    case Call(f, args) =>
      if !f.Leaf? || !args.Group? then Rejects
      else
        (match if args.bracket.Object? then RowsTrees(r, args.rows) else ArgsTrees(r, args.rows)
         case Rejects => Rejects
         case Normal(kids) => CallTrees(f.tok.text, args.bracket.Object?, false, kids))
    case Group(b, _, rows) =>
      if b.Object? then
        (match RowsTrees(r, rows) case Rejects => Rejects case Normal(kids) => Normal(One(EMPTY_LVALUE, BracedCall, kids)))
      else if rows.Rows? && rows.rest.NoRows? then ExprTrees(r, rows.first)
      else Rejects
  }

  function ArgsTrees(r: Reader, rows: Exprs): Result
    decreases rows, 0
  {
    if rows.NoRows? then Normal(Nil)
    else match ExprTrees(r, rows.first)
      case Rejects => Rejects
      case Normal(a) => (match ArgsTrees(r, rows.rest) case Rejects => Rejects case Normal(b) => Normal(Append(a, b)))
  }

  function RowsTrees(r: Reader, rows: Exprs): Result
    decreases rows, 0
  {
    if rows.NoRows? then Normal(Nil)
    else match RowTrees(r, rows.first)
      case Rejects => Rejects
      case Normal(a) => (match RowsTrees(r, rows.rest) case Rejects => Rejects case Normal(b) => Normal(Append(a, b)))
  }

  /** The right-hand side of a row: the rows of a block, or one expression. */
  function RightTrees(r: Reader, e: Expr): Result
    decreases e, 2
  {
    if e.Group? && e.bracket.Object? then RowsTrees(r, e.rows) else ExprTrees(r, e)
  }

  function RowTrees(r: Reader, row: Expr): Result
    decreases row, 3
  {
    if (row.Unary? || row.Binary?) && Assigns(row.op) then
      if row.Unary? || !row.left.Leaf? then Rejects
      else
        (match RightTrees(r, row.right)
         case Rejects => Rejects
         case Normal(kids) => CallTrees(row.left.tok.text, row.right.Group? && row.right.bracket.Object?, row.op.text == "?=", kids))
    else
      match RightTrees(r, row)
      case Rejects => Rejects
      case Normal(kids) => CallTrees("", row.Group? && row.bracket.Object?, false, kids)
  }

  /** A script: one block around everything is left out. */
  function ScriptTrees(r: Reader, rows: Exprs): Result {
    if rows.Rows? && rows.rest.NoRows? && rows.first.Group? && rows.first.bracket.Object? then RowsTrees(r, rows.first.rows)
    else RowsTrees(r, rows)
  }

  // --- a path as it is laid out ----------------------------------------------------------------------------

  function StepLength(x: Step): nat { if x.call == None then 1 else 3 }

  function PathLength(steps: seq<Step>): nat { if steps == [] then 0 else StepLength(steps[0]) + PathLength(steps[1..]) }

  /** The blocks of one step; everything but the argument spans to the end. */
  function StepBlocks(x: Step, span: nat, scope: BlockKind): seq<Block>
    requires span >= StepLength(x)
  {
    [Block(x.scope, span, scope)] + if x.call == None then [] else [Block(x.call.value.0, span - 1, ScopePathCall), Block(x.call.value.1, 1, Plain)]
  }

  /** The blocks of a path around `extra` further blocks. */
  function PathBlocks(steps: seq<Step>, extra: nat, scope: BlockKind): (r: seq<Block>)
    ensures |r| == PathLength(steps)
    decreases |steps|
  {
    if steps == [] then [] else StepBlocks(steps[0], PathLength(steps) + extra, scope) + PathBlocks(steps[1..], extra, scope)
  }

  /** Laying the path out with the right sizes in front of what it wraps spells the nested tree. */
  lemma {:induction false} NestSpells(steps: seq<Step>, scope: BlockKind, inner: Trees)
    ensures Spell(Nest(steps, scope, inner)) == PathBlocks(steps, |Spell(inner)|, scope) + Spell(inner)
    decreases |steps|
  {
    hide Spell, Enter, StepBlocks;
    if steps != [] {
      var more := Nest(steps[1..], scope, inner);
      NestSpells(steps[1..], scope, inner);
      EnterSpells(steps[0], scope, more);
      var first := StepBlocks(steps[0], PathLength(steps) + |Spell(inner)|, scope);
      assert first + (PathBlocks(steps[1..], |Spell(inner)|, scope) + Spell(inner)) == first + PathBlocks(steps[1..], |Spell(inner)|, scope) + Spell(inner);
    }
  }

  lemma EnterSpells(x: Step, scope: BlockKind, inner: Trees)
    ensures Spell(Enter(x, scope, inner)) == StepBlocks(x, StepLength(x) + |Spell(inner)|, scope) + Spell(inner)
  {
    hide Spell;
    if x.call == None {
      SpellOne(x.scope, scope, inner);
    } else {
      var arg := One(x.call.value.1, Plain, Nil);
      SpellNil();
      SpellOne(x.call.value.1, Plain, Nil);
      SpellAppend(arg, inner);
      SpellOne(x.call.value.0, ScopePathCall, Append(arg, inner));
      SpellOne(x.scope, scope, One(x.call.value.0, ScopePathCall, Append(arg, inner)));
    }
  }

  lemma SpellNil()
    ensures Spell(Nil) == []
  {}

  /** The blocks with their sizes before they are patched. */
  function RawStep(x: Step): seq<Block> {
    [Block(x.scope, 1, ScopePath)] + if x.call == None then [] else [Block(x.call.value.0, 2, ScopePathCall), Block(x.call.value.1, 1, Plain)]
  }

  function RawBlocks(steps: seq<Step>): (r: seq<Block>)
    ensures |r| == PathLength(steps)
    decreases |steps|
  {
    if steps == [] then [] else RawStep(steps[0]) + RawBlocks(steps[1..])
  }

  lemma {:induction false} RawAppend(steps: seq<Step>, x: Step)
    ensures RawBlocks(steps + [x]) == RawBlocks(steps) + RawStep(x)
    decreases |steps|
  {
    if steps == [] {
      assert [x][1..] == [];
    } else {
      assert (steps + [x])[1..] == steps[1..] + [x];
      RawAppend(steps[1..], x);
      assert RawStep(steps[0]) + (RawBlocks(steps[1..]) + RawStep(x)) == RawStep(steps[0]) + RawBlocks(steps[1..]) + RawStep(x);
    }
  }

  /** A block of a path spans from where it stands to the end, except for an argument. */
  function Spanning(raw: Block, span: nat, scope: BlockKind): Block {
    if raw.kind.Plain? then raw else Block(raw.name, span, if raw.kind.ScopePath? then scope else raw.kind)
  }

  lemma StepShape(x: Step, span: nat, scope: BlockKind)
    requires span >= StepLength(x)
    ensures |RawStep(x)| == |StepBlocks(x, span, scope)| == StepLength(x)
    ensures forall i :: 0 <= i < StepLength(x) ==> StepBlocks(x, span, scope)[i] == Spanning(RawStep(x)[i], span - i, scope)
  {}

  lemma {:induction false} PathBlockAt(steps: seq<Step>, i: nat, extra: nat, scope: BlockKind)
    requires i < PathLength(steps)
    ensures PathBlocks(steps, extra, scope)[i] == Spanning(RawBlocks(steps)[i], PathLength(steps) - i + extra, scope)
    decreases |steps|
  {
    hide StepBlocks, RawStep, Spanning;
    var d := StepLength(steps[0]);
    StepShape(steps[0], PathLength(steps) + extra, scope);
    if i >= d { PathBlockAt(steps[1..], i - d, extra, scope); }
  }

  /** How the blocks follow one another: a scope, or a scope, a call and its argument. */
  predicate Follows(raw: seq<Block>, i: nat)
    requires i < |raw|
  {
    match raw[i].kind
    case ScopePath => raw[i].size == 1 && (i + 1 < |raw| ==> !raw[i + 1].kind.Plain?)
    case ScopePathCall => raw[i].size == 2 && i + 1 < |raw| && raw[i + 1].kind.Plain? && (i + 2 < |raw| ==> !raw[i + 2].kind.Plain?)
    case Plain => true
    case _ => false
  }

  lemma {:induction false} RawFollows(steps: seq<Step>, i: nat)
    requires i < PathLength(steps)
    ensures Follows(RawBlocks(steps), i) && !RawBlocks(steps)[0].kind.Plain?
    decreases |steps|
  {
    var d := StepLength(steps[0]);
    if i >= d { RawFollows(steps[1..], i - d); }
    else if PathLength(steps[1..]) > 0 { RawFollows(steps[1..], 0); }
  }

  // --- what the blocks say ------------------------------------------------------------------------------------

  /** The operator itself, except for the two signs, which have names of their own as prefixes. */
  predicate PrefixNamed(op: string, name: string) {
    && (name == "unary_minus" <==> op == "-" || op == "unary_minus")
    && (name == "unary_plus" <==> op == "+" || op == "unary_plus")
    && (op != "-" && op != "+" ==> name == op)
  }

  predicate KindNamed(kind: BlockKind, nullable: bool, braced: bool) {
    && (kind == NullableBracedCall <==> nullable && braced) && (kind == NullableCall <==> nullable && !braced)
    && (kind == BracedCall <==> !nullable && braced) && (kind == Plain <==> !nullable && !braced)
  }

  predicate SimpleName(s: string) { s != "" && forall c :: c in s ==> c != '.' && c != ':' }

  /** A path read off its blocks, first scope first. */
  function PathText(path: seq<Block>): string
    decreases |path|
  {
    if path == [] then ""
    else
      var call := |path| >= 3 && path[1].kind.ScopePathCall?;
      var step := if call then path[0].name + ":" + path[1].name + ":" + path[2].name else path[0].name;
      var rest := if call then path[3..] else path[1..];
      if rest == [] then step else step + "." + PathText(rest)
  }

  /** Scopes span to the end of what the path leads to, and so do the calls between them, each in front of its argument. */
  predicate SpansOn(path: seq<Block>, length: nat, scope: BlockKind) {
    forall i :: 0 <= i < |path| ==> SimpleName(path[i].name) && SpanAt(path, i, length, scope)
  }

  predicate SpanAt(path: seq<Block>, i: nat, length: nat, scope: BlockKind)
    requires i < |path|
  {
    if path[i].kind.Plain? then i > 0 && path[i].size == 1 && path[i - 1].kind.ScopePathCall?
    else if path[i].kind.ScopePathCall? then
      0 < i < |path| - 1 && path[i].size == length - i && path[i - 1].kind == scope && path[i + 1].kind.Plain?
    else path[i].size == length - i && path[i].kind == scope
  }

  /** A call: the scopes in the order they are written, the function, and what is inside. */
  predicate CallSays(lvalue: string, braced: bool, nullable: bool, inner: seq<Block>, path: seq<Block>, own: seq<Block>) {
    var n := |path| + |own| + |inner|;
    if own != [] && own[0].name != "__empty_lvalue" then
      && |own| == 1 && own[0].size == 1 + |inner| && KindNamed(own[0].kind, nullable, braced) && SimpleName(own[0].name)
      && SpansOn(path, n, ScopePath) && lvalue == (if path == [] then own[0].name else PathText(path) + ":" + own[0].name)
    else
      && own == (if braced then [Block("__empty_lvalue", 1 + |inner|, BracedCall)] else [])
      && SpansOn(path, n, if nullable then NullableCall else ScopePath)
      && if path == [] then lvalue == "" || lvalue == "__empty_lvalue"
         else (lvalue == PathText(path) && |path| > 1) || lvalue == PathText(path) + ":__empty_lvalue"
  }

  ghost predicate Calls(lvalue: string, braced: bool, nullable: bool, inner: seq<Block>, bs: seq<Block>) {
    exists path, own :: bs == path + own + inner && CallSays(lvalue, braced, nullable, inner, path, own)
  }

  /** The blocks say what the expression does. */
  ghost predicate Tells(r: Reader, e: Expr, bs: seq<Block>)
    decreases e, 1
  {
    match e
    case Leaf(t) => bs == [Block(r.text(t), 1, if r.literal(t) then StringLiteral else Plain)]
    case Unary(op, x, _) =>
      && op.text != "=" && op.text != "?="
      && bs != [] && bs[0].size == |bs| && bs[0].kind == Plain && PrefixNamed(op.text, bs[0].name) && Tells(r, x, bs[1..])
    case Binary(op, x, y) =>
      && op.text != "=" && op.text != "?="
      && bs != [] && bs[0] == Block(op.text, |bs|, Plain) && exists k :: 1 <= k <= |bs| && Tells(r, x, bs[1..k]) && Tells(r, y, bs[k..])
    case Call(f, args) =>
      f.Leaf? && args.Group?
      && exists inner :: Calls(f.tok.text, args.bracket.Object?, false, inner, bs) && if args.bracket.Object? then TellsRows(r, args.rows, inner) else TellsArgs(r, args.rows, inner)
    case Group(b, _, rows) =>
      if b.Object? then bs != [] && bs[0] == Block("__empty_lvalue", |bs|, BracedCall) && TellsRows(r, rows, bs[1..])
      else rows.Rows? && rows.rest.NoRows? && Tells(r, rows.first, bs)
  }

  /** One after the other. */
  ghost predicate TellsArgs(r: Reader, rows: Exprs, bs: seq<Block>)
    decreases rows, 0
  {
    if rows.NoRows? then bs == [] else exists k :: 0 <= k <= |bs| && Tells(r, rows.first, bs[..k]) && TellsArgs(r, rows.rest, bs[k..])
  }

  ghost predicate TellsRows(r: Reader, rows: Exprs, bs: seq<Block>)
    decreases rows, 0
  {
    if rows.NoRows? then bs == [] else exists k :: 0 <= k <= |bs| && TellsRow(r, rows.first, bs[..k]) && TellsRows(r, rows.rest, bs[k..])
  }

  ghost predicate TellsRight(r: Reader, e: Expr, bs: seq<Block>)
    decreases e, 2
  {
    if e.Group? && e.bracket.Object? then TellsRows(r, e.rows, bs) else Tells(r, e, bs)
  }

  /** `path = rhs`, `path ?= rhs`, or an expression. */
  ghost predicate TellsRow(r: Reader, row: Expr, bs: seq<Block>)
    decreases row, 3
  {
    if row.Binary? && (row.op.text == "=" || row.op.text == "?=") then
      row.left.Leaf? && exists inner :: Calls(row.left.tok.text, row.right.Group? && row.right.bracket.Object?, row.op.text == "?=", inner, bs) && TellsRight(r, row.right, inner)
    else Tells(r, row, bs)
  }

  /** A script: the rows of the one block around everything, or the rows. */
  ghost predicate TellsScript(r: Reader, rows: Exprs, bs: seq<Block>) {
    match rows
    case Rows(Group(Object, _, inside), NoRows) => TellsRows(r, inside, bs)
    case _ => TellsRows(r, rows, bs)
  }

  // --- pieces and paths read back ---------------------------------------------------------------------------------

  function Join(ps: seq<string>, sep: char): string {
    if ps == [] then "" else if |ps| == 1 then ps[0] else ps[0] + [sep] + Join(ps[1..], sep)
  }

  lemma {:induction false} JoinPieces(s: string, sep: char)
    ensures Join(Pieces(s, sep), sep) == s
    decreases |s|
  {
    if s != [] {
      var more := Pieces(s[1..], sep);
      JoinPieces(s[1..], sep);
      if s[0] == sep {
        assert ([[]] + more)[1..] == more;
        assert [] + [sep] + s[1..] == s;
      } else {
        assert [s[0]] + Join(more, sep) == s;
        if |more| > 1 { assert ([[s[0]] + more[0]] + more[1..])[1..] == more[1..]; }
      }
    }
  }

  /** Where a piece stands: between separators or ends. */
  lemma {:induction false} PieceAt(s: string, sep: char, k: nat) returns (a: nat, b: nat)
    requires k < |Pieces(s, sep)|
    ensures a <= b <= |s| && s[a..b] == Pieces(s, sep)[k] && sep !in Pieces(s, sep)[k]
    ensures (a == 0 <==> k == 0) && (a == 0 || s[a - 1] == sep) && (b == |s| || s[b] == sep)
    decreases |s|
  {
    if s == [] { return 0, 0; }
    if s[0] == sep && k == 0 { return 0, 0; }
    var more := Pieces(s[1..], sep);
    var c, d := PieceAt(s[1..], sep, if s[0] == sep then k - 1 else k);
    Shifted(s, c, d);
    a, b := if k == 0 then 0 else c + 1, d + 1;
  }

  lemma Shifted(s: string, c: nat, d: nat)
    requires s != [] && c <= d < |s|
    ensures s[c + 1..d + 1] == s[1..][c..d] && s[..d + 1] == [s[0]] + s[1..][..d]
    ensures (c > 0 ==> s[1..][c - 1] == s[c]) && (d + 1 < |s| ==> s[1..][d] == s[d + 1])
  {
    var rest := s[1..];
    assert rest[..d] == s[1..d + 1] && rest[c..d] == s[c + 1..d + 1];
    var a, b := s[..d + 1], [s[0]] + rest[..d];
    forall i | 0 <= i < |a| ensures a[i] == b[i] {
      if i > 0 { assert rest[..d][i - 1] == rest[i - 1] == s[i]; }
    }
    assert |a| == |b|;
  }

  /** Where no element is empty, every part of a path is a name. */
  lemma PartIsName(s: string, k: nat, j: nat)
    requires !HasGap(s) && k < |Pieces(s, '.')| && j < |Pieces(Pieces(s, '.')[k], ':')|
    ensures SimpleName(Pieces(Pieces(s, '.')[k], ':')[j])
  {
    var p := Pieces(s, '.')[k];
    var a, b := PieceAt(s, '.', k);
    var c, d := PieceAt(p, ':', j);
    var name := Pieces(p, ':')[j];
    if name == "" { assert EmptyElement(s, a + c); }
    forall x | x in name ensures x != '.' {
      assert forall i :: c <= i < d ==> p[i] in p;
    }
  }

  function StepText(x: Step): string { if x.call == None then x.scope else x.scope + ":" + x.call.value.0 + ":" + x.call.value.1 }

  function StepsText(steps: seq<Step>): string {
    if steps == [] then "" else if |steps| == 1 then StepText(steps[0]) else StepText(steps[0]) + "." + StepsText(steps[1..])
  }

  predicate StepNamed(x: Step) { SimpleName(x.scope) && (x.call.Some? ==> SimpleName(x.call.value.0) && SimpleName(x.call.value.1)) }

  function FnText(fn: Option<string>): string { if fn == None then "" else ":" + fn.value }

  predicate PartsNamed(ps: seq<string>) { forall k, j :: 0 <= k < |ps| && 0 <= j < |Pieces(ps[k], ':')| ==> SimpleName(Pieces(ps[k], ':')[j]) }

  lemma PieceText(p: string)
    ensures var cs := Pieces(p, ':');
      && (|cs| == 1 ==> p == cs[0]) && (|cs| == 2 ==> p == cs[0] + ":" + cs[1]) && (|cs| == 3 ==> p == cs[0] + ":" + cs[1] + ":" + cs[2])
  {
    JoinPieces(p, ':');
    var cs := Pieces(p, ':');
    if |cs| == 3 {
      assert cs[1..][1..] == [cs[2]];
      assert Join(cs, ':') == cs[0] + ":" + (cs[1] + ":" + cs[2]);
    }
    else if |cs| == 2 { assert cs[1..] == [cs[1]]; }
  }

  function StepOf(cs: seq<string>): Step
    requires |cs| > 0
  {
    Step(cs[0], if |cs| == 3 then Some((cs[1], cs[2])) else None)
  }

  /** One step for every piece, behind those there were. */
  lemma {:induction false} StepsGrow(ps: seq<string>, k: nat, before: seq<Step>)
    requires k <= |ps|
    ensures var p := Steps(ps, k, before);
      p.Path? ==> |p.steps| == |before| + |ps| - k && p.steps[..|before|] == before && (k < |ps| ==> p.steps[|before|] == StepOf(Pieces(ps[k], ':')))
    decreases |ps| - k
  {
    hide Pieces;
    if k < |ps| {
      var x := StepOf(Pieces(ps[k], ':'));
      StepsGrow(ps, k + 1, before + [x]);
      var p := Steps(ps, k, before);
      if p.Path? {
        assert p.steps[|before|] == p.steps[..|before| + 1][|before|] == x;
        assert p.steps[..|before|] == p.steps[..|before| + 1][..|before|];
      }
    }
  }

  lemma JoinOne(ps: seq<string>, k: nat, sep: char)
    requires k < |ps|
    ensures Join(ps[k..], sep) == if k + 1 == |ps| then ps[k] else ps[k] + [sep] + Join(ps[k + 1..], sep)
  {
    assert ps[k..][1..] == ps[k + 1..];
  }

  lemma StepsTextOne(steps: seq<Step>, k: nat)
    requires k < |steps|
    ensures StepsText(steps[k..]) == if k + 1 == |steps| then StepText(steps[k]) else StepText(steps[k]) + "." + StepsText(steps[k + 1..])
  {
    hide StepText;
    assert steps[k..][1..] == steps[k + 1..];
  }

  lemma StepsMore(ps: seq<string>, k: nat, before: seq<Step>)
    requires k < |ps| && Steps(ps, k, before).Path?
    ensures var cs := Pieces(ps[k], ':');
      && |cs| <= 3 && (|cs| == 2 ==> k + 1 == |ps| && Steps(ps, k, before) == Path(before + [StepOf(cs)], Some(cs[1])))
      && (|cs| != 2 ==> Steps(ps, k, before) == Steps(ps, k + 1, before + [StepOf(cs)]))
  {
    hide Pieces;
  }

  lemma PieceSays(p: string)
    ensures var cs := Pieces(p, ':');
      |cs| <= 3 ==> p == if |cs| == 2 then StepText(StepOf(cs)) + FnText(Some(cs[1])) else StepText(StepOf(cs))
  {
    PieceText(p);
    hide Pieces;
    var cs := Pieces(p, ':');
    if |cs| == 2 { assert cs[0] + ":" + cs[1] == cs[0] + (":" + cs[1]); }
  }

  lemma Behind(a: string, b: string, c: string, d: string)
    ensures a + b + (c + d) == (a + b + c) + d
  {}

  /** The steps from the k-th piece on are its text. */
  lemma {:induction false} StepsSay(ps: seq<string>, k: nat, before: seq<Step>)
    requires k <= |ps| && Steps(ps, k, before).Path?
    ensures var p := Steps(ps, k, before);
      |before| <= |p.steps| && (k == |ps| ==> p.fn == None) && Join(ps[k..], '.') == StepsText(p.steps[|before|..]) + FnText(p.fn)
    decreases |ps| - k
  {
    if k == |ps| {
      NothingSaid();
      assert ps[k..] == [] && before[|before|..] == [];
    } else {
      hide Pieces, StepText, Join, StepsText, FnText, Steps;
      var cs, p := Pieces(ps[k], ':'), Steps(ps, k, before);
      StepsMore(ps, k, before);
      StepsGrow(ps, k, before);
      PieceSays(ps[k]);
      JoinOne(ps, k, '.');
      StepsTextOne(p.steps, |before|);
      if |cs| != 2 {
        StepsSay(ps, k + 1, before + [StepOf(cs)]);
        if k + 1 == |ps| { LastSays(ps, k + 1, before + [StepOf(cs)]); }
        else { Behind(ps[k], ".", StepsText(p.steps[|before| + 1..]), FnText(p.fn)); }
      }
    }
  }

  lemma LastSays(ps: seq<string>, k: nat, before: seq<Step>)
    requires k == |ps|
    ensures Steps(ps, k, before) == Path(before, None) && forall s: string :: s + FnText(None) == s
  {}

  lemma NothingSaid()
    ensures Join([], '.') == "" && StepsText([]) == "" && FnText(None) == ""
  {}

  lemma {:induction false} StepsNamed(ps: seq<string>, k: nat, before: seq<Step>)
    requires k <= |ps| && Steps(ps, k, before).Path? && PartsNamed(ps) && forall i :: 0 <= i < |before| ==> StepNamed(before[i])
    ensures var p := Steps(ps, k, before); (forall i :: 0 <= i < |p.steps| ==> StepNamed(p.steps[i])) && (p.fn.Some? ==> SimpleName(p.fn.value))
    decreases |ps| - k
  {
    hide SimpleName, Pieces;
    if k < |ps| {
      var cs := Pieces(ps[k], ':');
      assert StepNamed(StepOf(cs));
      if |cs| != 2 { StepsNamed(ps, k + 1, before + [StepOf(cs)]); }
    }
  }

  /** A path that is split is its steps and its function, and every part of it is a name. */
  lemma SplitSays(lvalue: string)
    requires SplitPath(lvalue).Path?
    ensures var p := SplitPath(lvalue);
      && (forall i :: 0 <= i < |p.steps| ==> StepNamed(p.steps[i])) && (p.fn.Some? ==> SimpleName(p.fn.value))
      && (p.steps == [] ==> p.fn == Some(lvalue)) && (p.steps != [] ==> lvalue == StepsText(p.steps) + FnText(p.fn))
      && (p.fn == None ==> |p.steps| > 1 || p.steps[0].call.Some?)
  {
    hide Steps, HasGap, SimpleName;
    var ps := Pieces(lvalue, '.');
    forall k, j | 0 <= k < |ps| && 0 <= j < |Pieces(ps[k], ':')| ensures SimpleName(Pieces(ps[k], ':')[j]) { PartIsName(lvalue, k, j); }
    JoinPieces(lvalue, '.');
    StepsSay(ps, 0, []);
    StepsNamed(ps, 0, []);
    StepsGrow(ps, 0, []);
    var p := Steps(ps, 0, []);
    assert ps[0..] == ps && p.steps[0..] == p.steps;
    if p.fn == None { assert StepsText(p.steps) + "" == StepsText(p.steps); }
  }

  lemma {:induction false} PathReads(steps: seq<Step>, extra: nat, scope: BlockKind)
    requires scope.ScopePath? || scope.NullableCall?
    ensures PathText(PathBlocks(steps, extra, scope)) == StepsText(steps)
    ensures steps != [] ==> PathBlocks(steps, extra, scope) != [] && PathBlocks(steps, extra, scope)[0].kind == scope
    decreases |steps|
  {
    if steps != [] {
      PathReads(steps[1..], extra, scope);
      var path, more := PathBlocks(steps, extra, scope), PathBlocks(steps[1..], extra, scope);
      assert path[StepLength(steps[0])..] == more;
    }
  }

  lemma {:induction false} PathSpans(steps: seq<Step>, extra: nat, scope: BlockKind, i: nat)
    requires (scope.ScopePath? || scope.NullableCall?) && i < PathLength(steps) && forall k :: 0 <= k < |steps| ==> StepNamed(steps[k])
    ensures var path := PathBlocks(steps, extra, scope);
      SimpleName(path[i].name) && SpanAt(path, i, PathLength(steps) + extra, scope)
    decreases |steps|
  {
    var path, more, d := PathBlocks(steps, extra, scope), PathBlocks(steps[1..], extra, scope), StepLength(steps[0]);
    if i >= d {
      PathSpans(steps[1..], extra, scope, i - d);
      PathReads(steps[1..], extra, scope);
      assert path[d..] == more;
    }
  }

  // --- the trees of a script say what it does ---------------------------------------------------------------------

  lemma CallKindNamed(nullable: bool, braced: bool)
    ensures KindNamed(CallKind(nullable, braced), nullable, braced)
  {}

  lemma PathSpansOn(steps: seq<Step>, extra: nat, scope: BlockKind)
    requires (scope.ScopePath? || scope.NullableCall?) && forall i :: 0 <= i < |steps| ==> StepNamed(steps[i])
    ensures SpansOn(PathBlocks(steps, extra, scope), PathLength(steps) + extra, scope)
  {
    hide PathBlocks, SpanAt, SimpleName, StepNamed;
    var path := PathBlocks(steps, extra, scope);
    forall i | 0 <= i < |path| ensures SimpleName(path[i].name) && SpanAt(path, i, PathLength(steps) + extra, scope) {
      PathSpans(steps, extra, scope, i);
    }
  }

  lemma NestedSays(steps: seq<Step>, scope: BlockKind, own: seq<Block>, kids: Trees, inner: Trees)
    requires (scope.ScopePath? || scope.NullableCall?) && (forall i :: 0 <= i < |steps| ==> StepNamed(steps[i])) && Spell(inner) == own + Spell(kids)
    ensures var path := PathBlocks(steps, |Spell(inner)|, scope);
      && Spell(Nest(steps, scope, inner)) == path + own + Spell(kids) && PathText(path) == StepsText(steps)
      && SpansOn(path, |path| + |own| + |Spell(kids)|, scope) && (path == [] <==> steps == [])
      && (|path| == 1 ==> |steps| == 1 && steps[0].call == None)
  {
    hide Spell, Nest, PathBlocks, PathLength, SpansOn, PathText, StepsText, SimpleName, StepNamed;
    var path := PathBlocks(steps, |Spell(inner)|, scope);
    NestSpells(steps, scope, inner);
    PathReads(steps, |Spell(inner)|, scope);
    PathSpansOn(steps, |Spell(inner)|, scope);
    LengthAtLeast(steps);
    ThreeTogether(path, own, Spell(kids));
  }

  lemma ThreeTogether(a: seq<Block>, b: seq<Block>, c: seq<Block>)
    ensures a + (b + c) == a + b + c && |a + b + c| == |a| + |b| + |c|
  {}

  lemma {:induction false} LengthAtLeast(steps: seq<Step>)
    ensures PathLength(steps) >= |steps| && (PathLength(steps) == 0 <==> steps == []) && (PathLength(steps) == 1 ==> |steps| == 1 && steps[0].call == None)
    decreases |steps|
  {
    if steps != [] { LengthAtLeast(steps[1..]); }
  }

  /** A call says what was written: scopes in order, the function, what is inside. */
  lemma CallTells(lvalue: string, braced: bool, nullable: bool, kids: Trees)
    ensures var t := CallTrees(lvalue, braced, nullable, kids);
      t.Normal? ==> Calls(lvalue, braced, nullable, Spell(kids), Spell(t.trees))
  {
    hide Spell, Nest, PathBlocks, PathText, StepsText, SplitPath, SpansOn, KindNamed, SimpleName;
    var t, below := CallTrees(lvalue, braced, nullable, kids), Spell(kids);
    if lvalue == "" {
      var own := if braced then [Block("__empty_lvalue", 1 + |below|, BracedCall)] else [];
      SpellOne(EMPTY_LVALUE, BracedCall, kids);
      NothingSpans(|own| + |below|, if nullable then NullableCall else ScopePath);
      assert Spell(t.trees) == [] + own + below;
      assert CallSays(lvalue, braced, nullable, below, [], own);
    } else if t.Normal? {
      var steps, fn := SplitPath(lvalue).steps, SplitPath(lvalue).fn;
      SplitSays(lvalue);
      var bare := fn == None || fn.value == EMPTY_LVALUE;
      var kind := CallKind(nullable && !bare, braced);
      var own := if bare && !braced then [] else [Block(if bare then EMPTY_LVALUE else fn.value, |below| + 1, kind)];
      var inner := if bare && !braced then kids else One(if bare then EMPTY_LVALUE else fn.value, kind, kids);
      SpellOne(if bare then EMPTY_LVALUE else fn.value, kind, kids);
      CallKindNamed(nullable && !bare, braced);
      assert own + below == Spell(inner);
      NestedSays(steps, if nullable && bare then NullableCall else ScopePath, own, kids, inner);
      var path := PathBlocks(steps, |Spell(inner)|, if nullable && bare then NullableCall else ScopePath);
      CallFits(lvalue, braced, nullable, below, path, own, steps, fn);
    }
  }

  lemma NothingSpans(length: nat, scope: BlockKind)
    ensures SpansOn([], length, scope)
  {}

  lemma CallFits(lvalue: string, braced: bool, nullable: bool, below: seq<Block>, path: seq<Block>, own: seq<Block>, steps: seq<Step>, fn: Option<string>)
    requires var bare := fn == None || fn.value == "__empty_lvalue";
      && own == (if bare && !braced then [] else [Block(if bare then "__empty_lvalue" else fn.value, |below| + 1, CallKind(nullable && !bare, braced))])
      && SpansOn(path, |path| + |own| + |below|, if nullable && bare then NullableCall else ScopePath)
    requires PathText(path) == StepsText(steps) && (path == [] <==> steps == []) && (|path| == 1 ==> |steps| == 1 && steps[0].call == None)
    requires (fn.Some? ==> SimpleName(fn.value)) && (steps == [] ==> fn == Some(lvalue)) && (steps != [] ==> lvalue == StepsText(steps) + FnText(fn))
    requires fn == None ==> |steps| > 1 || steps[0].call.Some?
    ensures CallSays(lvalue, braced, nullable, below, path, own)
  {
    hide PathText, StepsText, SimpleName, SpansOn, CallKind, KindNamed, FnText;
    if fn == None {
      FnTextIs(StepsText(steps), "");
      BracedIs();
    } else {
      FnTextIs(StepsText(steps), fn.value);
      if fn.value == "__empty_lvalue" {
        ReservedText(StepsText(steps));
        BracedIs();
      } else {
        CallKindNamed(nullable, braced);
      }
    }
  }

  lemma BracedIs()
    ensures CallKind(false, true) == BracedCall
  {}

  lemma FnTextIs(s: string, fn: string)
    ensures s + FnText(None) == s && s + FnText(Some(fn)) == s + ":" + fn
  {}

  lemma ReservedText(s: string)
    ensures s + ":" + "__empty_lvalue" == s + ":__empty_lvalue"
  {}

  lemma TopOf(name: string, kind: BlockKind, kids: Trees)
    ensures var bs := Spell(One(name, kind, kids)); bs != [] && bs[0] == Block(name, |bs|, kind) && bs[1..] == Spell(kids)
  {
    SpellOne(name, kind, kids);
  }

  lemma CutTwo(a: seq<Block>, b: seq<Block>)
    ensures (a + b)[..|a|] == a && (a + b)[|a|..] == b
  {}

  /** The blocks of an expression say what it does. */
  lemma {:induction false} ExprTells(r: Reader, e: Expr)
    requires ExprTrees(r, e).Normal?
    ensures Tells(r, e, Spell(ExprTrees(r, e).trees))
    decreases e, 1
  {
    hide Spell, CallTrees, Calls;
    var bs := Spell(ExprTrees(r, e).trees);
    match e
    case Leaf(t) =>
      SpellOne(r.text(t), if r.literal(t) then StringLiteral else Plain, Nil);
      SpellNil();
    case Unary(op, x, _) =>
      ExprTells(r, x);
      TopOf(UnaryName(op), Plain, ExprTrees(r, x).trees);
    case Binary(op, x, y) =>
      ExprTells(r, x);
      ExprTells(r, y);
      var a, b := ExprTrees(r, x).trees, ExprTrees(r, y).trees;
      TopOf(op.text, Plain, Append(a, b));
      SpellAppend(a, b);
      CutTwo(Spell(a), Spell(b));
      var k := 1 + |Spell(a)|;
      assert bs[1..k] == bs[1..][..k - 1] && bs[k..] == bs[1..][k - 1..];
    case Call(f, args) =>
      if args.bracket.Object? { RowsTell(r, args.rows); } else { ArgsTell(r, args.rows); }
      var kids := (if args.bracket.Object? then RowsTrees(r, args.rows) else ArgsTrees(r, args.rows)).trees;
      CallTells(f.tok.text, args.bracket.Object?, false, kids);
    case Group(b, _, rows) =>
      if b.Object? {
        RowsTell(r, rows);
        TopOf(EMPTY_LVALUE, BracedCall, RowsTrees(r, rows).trees);
      } else {
        ExprTells(r, rows.first);
      }
  }

  lemma {:induction false} ArgsTell(r: Reader, rows: Exprs)
    requires ArgsTrees(r, rows).Normal?
    ensures TellsArgs(r, rows, Spell(ArgsTrees(r, rows).trees))
    decreases rows, 0
  {
    hide Spell, ExprTrees, Tells;
    if rows.NoRows? { SpellNil(); }
    else {
      ExprTells(r, rows.first);
      ArgsTell(r, rows.rest);
      var a, b := ExprTrees(r, rows.first).trees, ArgsTrees(r, rows.rest).trees;
      SpellAppend(a, b);
      CutTwo(Spell(a), Spell(b));
    }
  }

  lemma {:induction false} RowsTell(r: Reader, rows: Exprs)
    requires RowsTrees(r, rows).Normal?
    ensures TellsRows(r, rows, Spell(RowsTrees(r, rows).trees))
    decreases rows, 0
  {
    hide Spell, RowTrees, TellsRow;
    if rows.NoRows? { SpellNil(); }
    else {
      RowTells(r, rows.first);
      RowsTell(r, rows.rest);
      var a, b := RowTrees(r, rows.first).trees, RowsTrees(r, rows.rest).trees;
      SpellAppend(a, b);
      CutTwo(Spell(a), Spell(b));
    }
  }

  lemma {:induction false} RightTells(r: Reader, e: Expr)
    requires RightTrees(r, e).Normal?
    ensures TellsRight(r, e, Spell(RightTrees(r, e).trees))
    decreases e, 2
  {
    hide Spell, ExprTrees, RowsTrees, Tells, TellsRows;
    if e.Group? && e.bracket.Object? { RowsTell(r, e.rows); } else { ExprTells(r, e); }
  }

  lemma {:induction false} RowTells(r: Reader, row: Expr)
    requires RowTrees(r, row).Normal?
    ensures TellsRow(r, row, Spell(RowTrees(r, row).trees))
    decreases row, 3
  {
    hide Spell, CallTrees, Calls;
    if row.Binary? && Assigns(row.op) {
      RightTells(r, row.right);
      CallTells(row.left.tok.text, row.right.Group? && row.right.bracket.Object?, row.op.text == "?=", RightTrees(r, row.right).trees);
    } else {
      RightTells(r, row);
      NamelessCall(row.Group? && row.bracket.Object?, RightTrees(r, row).trees);
      TopOf(EMPTY_LVALUE, BracedCall, RightTrees(r, row).trees);
    }
  }

  lemma NamelessCall(braced: bool, kids: Trees)
    ensures CallTrees("", braced, false, kids) == Normal(if braced then One(EMPTY_LVALUE, BracedCall, kids) else kids)
  {}

  // --- which scripts have a normal form ------------------------------------------------------------------------------

  predicate NothingEndsAt(path: string, i: nat)
    requires i <= |path|
  {
    (i == |path| || path[i] == '.' || path[i] == ':') && (i == 0 || path[i - 1] == '.' || path[i - 1] == ':')
  }

  /** No element of the path is empty, it is not too long, and a function stands last. */
  predicate Readable(path: string) {
    && (forall i :: 0 <= i <= |path| ==> !NothingEndsAt(path, i))
    && var ps := Pieces(path, '.');
       |ps| <= 16 && forall k :: 0 <= k < |ps| ==> |Pieces(ps[k], ':')| <= 3 && (|Pieces(ps[k], ':')| == 2 ==> k == |ps| - 1)
  }

  lemma {:induction false} StepsTaken(ps: seq<string>, k: nat, before: seq<Step>)
    requires k <= |ps|
    ensures Steps(ps, k, before).Path? <==> forall j :: k <= j < |ps| ==> |Pieces(ps[j], ':')| <= 3 && (|Pieces(ps[j], ':')| == 2 ==> j == |ps| - 1)
    decreases |ps| - k
  {
    hide Pieces;
    if k < |ps| { StepsTaken(ps, k + 1, before + [StepOf(Pieces(ps[k], ':'))]); }
  }

  /** A path is split exactly if it is readable. */
  lemma SplitsReadable(lvalue: string)
    ensures SplitPath(lvalue).Path? <==> Readable(lvalue)
  {
    hide Steps, Pieces;
    StepsTaken(Pieces(lvalue, '.'), 0, []);
    if HasGap(lvalue) {
      var i: nat :| i <= |lvalue| && EmptyElement(lvalue, i);
      assert NothingEndsAt(lvalue, i);
    } else {
      forall i | 0 <= i <= |lvalue| ensures !NothingEndsAt(lvalue, i) { assert !EmptyElement(lvalue, i); }
    }
  }

  /** Calls are of readable paths, groups hold one value, and only rows assign. */
  predicate Allowed(e: Expr)
    decreases e, 1
  {
    match e
    case Leaf(_) => true
    case Unary(op, x, _) => op.text != "=" && op.text != "?=" && Allowed(x)
    case Binary(op, x, y) => op.text != "=" && op.text != "?=" && Allowed(x) && Allowed(y)
    case Call(f, args) =>
      && f.Leaf? && (f.tok.text == "" || Readable(f.tok.text))
      && args.Group? && if args.bracket.Object? then AllowedRows(args.rows) else AllowedArgs(args.rows)
    case Group(b, _, rows) => if b.Object? then AllowedRows(rows) else rows.Rows? && rows.rest.NoRows? && Allowed(rows.first)
  }

  predicate AllowedArgs(rows: Exprs)
    decreases rows, 0
  {
    rows.NoRows? || (Allowed(rows.first) && AllowedArgs(rows.rest))
  }

  predicate AllowedRows(rows: Exprs)
    decreases rows, 0
  {
    rows.NoRows? || (AllowedRow(rows.first) && AllowedRows(rows.rest))
  }

  predicate AllowedRow(row: Expr)
    decreases row, 3
  {
    if row.Binary? && (row.op.text == "=" || row.op.text == "?=") then
      && row.left.Leaf? && (row.left.tok.text == "" || Readable(row.left.tok.text))
      && if row.right.Group? && row.right.bracket.Object? then AllowedRows(row.right.rows) else Allowed(row.right)
    else Allowed(row)
  }

  lemma CallAllowed(lvalue: string, braced: bool, nullable: bool, kids: Trees)
    ensures CallTrees(lvalue, braced, nullable, kids).Normal? <==> lvalue == "" || Readable(lvalue)
  {
    hide SplitPath, Readable;
    SplitsReadable(lvalue);
  }

  lemma {:induction false} ExprAllowed(r: Reader, e: Expr)
    ensures ExprTrees(r, e).Normal? <==> Allowed(e)
    decreases e, 1
  {
    hide CallTrees, Readable, Append;
    match e
    case Leaf(_) =>
    case Unary(_, x, _) => ExprAllowed(r, x);
    case Binary(_, x, y) =>
      ExprAllowed(r, x);
      ExprAllowed(r, y);
    case Call(f, args) =>
      if f.Leaf? && args.Group? {
        var kids := if args.bracket.Object? then RowsTrees(r, args.rows) else ArgsTrees(r, args.rows);
        if args.bracket.Object? { RowsAllowed(r, args.rows); } else { ArgsAllowed(r, args.rows); }
        if kids.Normal? { CallAllowed(f.tok.text, args.bracket.Object?, false, kids.trees); }
      }
    case Group(b, _, rows) =>
      if b.Object? { RowsAllowed(r, rows); } else if rows.Rows? { ExprAllowed(r, rows.first); }
  }

  lemma {:induction false} ArgsAllowed(r: Reader, rows: Exprs)
    ensures ArgsTrees(r, rows).Normal? <==> AllowedArgs(rows)
    decreases rows, 0
  {
    hide ExprTrees, Allowed;
    if rows.Rows? {
      ExprAllowed(r, rows.first);
      ArgsAllowed(r, rows.rest);
    }
  }

  lemma {:induction false} RowsAllowed(r: Reader, rows: Exprs)
    ensures RowsTrees(r, rows).Normal? <==> AllowedRows(rows)
    decreases rows, 0
  {
    hide RowTrees, AllowedRow;
    if rows.Rows? {
      RowAllowed(r, rows.first);
      RowsAllowed(r, rows.rest);
    }
  }

  lemma {:induction false} RowAllowed(r: Reader, row: Expr)
    ensures RowTrees(r, row).Normal? <==> AllowedRow(row)
    decreases row, 3
  {
    hide CallTrees, Readable, Append;
    var e := if row.Binary? && Assigns(row.op) then row.right else row;
    var lvalue := if row.Binary? && Assigns(row.op) && row.left.Leaf? then row.left.tok.text else "";
    var kids, braced := RightTrees(r, e), e.Group? && e.bracket.Object?;
    if braced { RowsAllowed(r, e.rows); } else { ExprAllowed(r, e); }
    if kids.Normal? { CallAllowed(lvalue, braced, row.Binary? && row.op.text == "?=", kids.trees); }
    if row == e && kids.Normal? { CallAllowed("", braced, false, kids.trees); }
  }

  /** Which expressions have a normal form, and what its blocks say. */
  lemma ExprSays(r: Reader, e: Expr)
    ensures ExprTrees(r, e).Normal? <==> Allowed(e)
    ensures ExprTrees(r, e).Normal? ==> Tells(r, e, Spell(ExprTrees(r, e).trees))
  {
    hide Spell, ExprTrees, Allowed, Tells;
    ExprAllowed(r, e);
    if ExprTrees(r, e).Normal? { ExprTells(r, e); }
  }

  predicate AllowedScript(rows: Exprs) {
    match rows
    case Rows(Group(Object, _, inside), NoRows) => AllowedRows(inside)
    case _ => AllowedRows(rows)
  }

  /** Which scripts have a normal form, and what its blocks say. */
  lemma ScriptSays(r: Reader, rows: Exprs)
    ensures ScriptTrees(r, rows).Normal? <==> AllowedScript(rows)
    ensures ScriptTrees(r, rows).Normal? ==> TellsScript(r, rows, Spell(ScriptTrees(r, rows).trees))
  {
    hide Spell, RowsTrees, AllowedRows, TellsRows;
    var braced := rows.Rows? && rows.rest.NoRows? && rows.first.Group? && rows.first.bracket.Object?;
    var root := if braced then rows.first.rows else rows;
    RowsAllowed(r, root);
    if RowsTrees(r, root).Normal? { RowsTell(r, root); }
  }
}
