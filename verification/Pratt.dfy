/**
  The expression parser: a cursor over events builds flat prefix trees. The functions say
  what it parses; printing a tree and parsing it gives the tree back.
*/
module Pratt {
  // --- events and trees ------------------------------------------------------------------------

  datatype Bracket = Object | Tuple | Array

  datatype Token = Token(isOp: bool, text: string)

  datatype EventKind = RowBegin | RowEnd | Begin(bracket: Bracket) | End(bracket: Bracket) | Word | Invalid

  datatype Event = Event(kind: EventKind, tok: Token)

  const NO_TOKEN := Token(false, "")
  const MAX_DEPTH: nat := 256

  datatype Infix = Infix(precedence: nat, right: bool) | NotInfix

  /** The operator table, and which words are integers that do not fit. */
  datatype Table = Table(prefix: string -> bool, postfix: string -> bool, binary: string -> Infix, tooLarge: string -> bool)

  datatype Expr =
    | Leaf(tok: Token)
    | Unary(op: Token, operand: Expr, post: bool)
    | Binary(op: Token, left: Expr, right: Expr)
    | Call(callee: Expr, args: Expr)
    | Group(bracket: Bracket, open: Token, rows: Exprs)
  datatype Exprs = NoRows | Rows(first: Expr, rest: Exprs)

  /** Every node says how many nodes lie below it. */
  datatype NodeType = WordNode | PairNode | BlockNode(bracket: Bracket)
  datatype Node = Node(ty: NodeType, tok: Token, below: nat)

  function Flat(e: Expr): seq<Node> {
    match e
    case Leaf(t) => [Node(WordNode, t, 0)]
    case Unary(op, x, _) => [Node(PairNode, op, |Flat(x)|)] + Flat(x)
    case Binary(op, l, r) => [Node(PairNode, op, |Flat(l)| + |Flat(r)|)] + Flat(l) + Flat(r)
    case Call(f, a) => [Node(PairNode, NO_TOKEN, |Flat(f)| + |Flat(a)|)] + Flat(f) + Flat(a)
    case Group(b, t, rows) => [Node(BlockNode(b), t, |FlatRows(rows)|)] + FlatRows(rows)
  }

  function FlatRows(rows: Exprs): seq<Node> { if rows.NoRows? then [] else Flat(rows.first) + FlatRows(rows.rest) }

  function Max(a: nat, b: nat): nat { if a < b then b else a }

  function Depth(e: Expr): nat {
    match e
    case Leaf(_) => 1
    case Unary(_, x, _) => 1 + Depth(x)
    case Binary(_, l, r) => 1 + Max(Depth(l), Depth(r))
    case Call(f, a) => 1 + Max(Depth(f), Depth(a))
    case Group(_, _, rows) => 1 + DepthRows(rows)
  }

  function DepthRows(rows: Exprs): nat { if rows.NoRows? then 0 else Max(Depth(rows.first), DepthRows(rows.rest)) }

  // --- what is parsed -----------------------------------------------------------------------------

  datatype SyntaxError = TooDeep | Unexpected | MissingOperand | ExpectedName | OutOfRange

  datatype Parsed = Ok(expr: Expr, next: nat) | Bad(error: SyntaxError)
  datatype ParsedRows = OkRows(rows: Exprs, next: nat) | BadRows(error: SyntaxError)

  function Peek(evs: seq<Event>, i: nat): Event { if i < |evs| then evs[i] else Event(Invalid, NO_TOKEN) }

  predicate AtRowEnd(evs: seq<Event>, i: nat) {
    var k := Peek(evs, i).kind;
    k.RowEnd? || k.Invalid? || k.End?
  }

  predicate IsOp(evs: seq<Event>, i: nat) { Peek(evs, i).tok.isOp }

  function Left(evs: seq<Event>, i: nat): nat { if i < |evs| then |evs| - i else 0 }

  function NextMin(f: Infix): nat
    requires f.Infix?
  {
    if f.right then f.precedence else f.precedence + 1
  }

  function ParsePrimary(p: Table, evs: seq<Event>, i: nat, depth: nat): (r: Parsed)
    ensures r.Ok? ==> r.next > i
    decreases Left(evs, i), 1
  {
    var ev := Peek(evs, i);
    if ev.kind.Begin? then ParseBracket(p, evs, i, depth)
    else if ev.tok.isOp && ev.tok.text in ["=", "?="] then Bad(ExpectedName)
    else if p.tooLarge(ev.tok.text) then Bad(OutOfRange)
    else Ok(Leaf(ev.tok), i + 1)
  }

  function ParseBracket(p: Table, evs: seq<Event>, i: nat, depth: nat): (r: Parsed)
    requires Peek(evs, i).kind.Begin?
    ensures r.Ok? ==> r.next > i && r.expr.Group?
    decreases Left(evs, i), 0
  {
    match ParseRows(p, evs, i + 1, depth)
    case BadRows(err) => Bad(err)
    case OkRows(rows, j) => Ok(Group(Peek(evs, i).kind.bracket, Peek(evs, i).tok, rows), if Peek(evs, j).kind.End? then j + 1 else j)
  }

  function ParseRows(p: Table, evs: seq<Event>, i: nat, depth: nat): (r: ParsedRows)
    ensures r.OkRows? ==> r.next >= i
    decreases Left(evs, i), 7
  {
    if !Peek(evs, i).kind.RowBegin? then OkRows(NoRows, i)
    else
      match ParseRow(p, evs, i + 1, depth)
      case Bad(err) => BadRows(err)
      case Ok(e, j) =>
        match ParseRows(p, evs, j, depth)
        case BadRows(err) => BadRows(err)
        case OkRows(rows, k) => OkRows(Rows(e, rows), k)
  }

  /** One expression, nothing behind it. */
  function ParseRow(p: Table, evs: seq<Event>, i: nat, depth: nat): (r: Parsed)
    ensures r.Ok? ==> r.next > i
    decreases Left(evs, i), 6
  {
    match ParseExpr(p, evs, i, depth, 0)
    case Bad(err) => Bad(err)
    case Ok(e, j) =>
      if Depth(e) > MAX_DEPTH then Bad(TooDeep)
      else if !AtRowEnd(evs, j) then Bad(Unexpected)
      else Ok(e, if Peek(evs, j).kind.RowEnd? then j + 1 else j)
  }

  function ParsePostfix(p: Table, evs: seq<Event>, i: nat, depth: nat): (r: Parsed)
    ensures r.Ok? ==> r.next > i
    decreases Left(evs, i), 2
  {
    match ParsePrimary(p, evs, i, depth)
    case Bad(err) => Bad(err)
    case Ok(v, j) => PostfixLoop(p, evs, j, depth, v)
  }

  function PostfixLoop(p: Table, evs: seq<Event>, i: nat, depth: nat, v: Expr): (r: Parsed)
    ensures r.Ok? ==> r.next >= i
    decreases Left(evs, i), 1
  {
    var ev := Peek(evs, i);
    if i >= |evs| then Ok(v, i)
    else if ev.tok.isOp && p.postfix(ev.tok.text) then PostfixLoop(p, evs, i + 1, depth, Unary(ev.tok, v, true))
    else if ev.kind.Begin? then
      match ParseBracket(p, evs, i, depth)
      case Bad(err) => Bad(err)
      case Ok(args, j) => PostfixLoop(p, evs, j, depth, Call(v, args))
    else Ok(v, i)
  }

  function ParsePrefix(p: Table, evs: seq<Event>, i: nat, depth: nat): (r: Parsed)
    ensures r.Ok? ==> r.next > i
    decreases Left(evs, i), 3
  {
    var ev := Peek(evs, i);
    if depth >= MAX_DEPTH then Bad(TooDeep)
    else if i < |evs| && ev.tok.isOp && p.prefix(ev.tok.text) then
      if AtRowEnd(evs, i + 1) then Bad(MissingOperand)
      else
        match ParsePrefix(p, evs, i + 1, depth + 1)
        case Bad(err) => Bad(err)
        case Ok(x, j) => Ok(Unary(ev.tok, x, false), j)
    else ParsePostfix(p, evs, i, depth + 1)
  }

  function ParseExpr(p: Table, evs: seq<Event>, i: nat, depth: nat, min: nat): (r: Parsed)
    ensures r.Ok? ==> r.next > i
    decreases Left(evs, i), 5
  {
    if depth >= MAX_DEPTH then Bad(TooDeep)
    else
      match ParsePrefix(p, evs, i, depth + 1)
      case Bad(err) => Bad(err)
      case Ok(lhs, j) => BinaryLoop(p, evs, j, depth + 1, min, lhs)
  }

  function BinaryLoop(p: Table, evs: seq<Event>, i: nat, depth: nat, min: nat, lhs: Expr): (r: Parsed)
    ensures r.Ok? ==> r.next >= i
    decreases Left(evs, i), 4
  {
    var tok := Peek(evs, i).tok;
    if i >= |evs| || !tok.isOp then Ok(lhs, i)
    else
      var info := p.binary(tok.text);
      if info.NotInfix? || info.precedence < min then Ok(lhs, i)
      else if AtRowEnd(evs, i + 1) then Bad(MissingOperand)
      else
        match ParseExpr(p, evs, i + 1, depth, NextMin(info))
        case Bad(err) => Bad(err)
        case Ok(rhs, j) => BinaryLoop(p, evs, j, depth, min, Binary(tok, lhs, rhs))
  }

  // --- printing -------------------------------------------------------------------------------------

  function Word_(t: Token): Event { Event(Word, t) }

  /** The events of a tree, brackets only where the tree has groups. */
  function Print(e: Expr): (r: seq<Event>)
    ensures |r| > 0
  {
    match e
    case Leaf(t) => [Word_(t)]
    case Unary(op, x, post) => if post then Print(x) + [Word_(op)] else [Word_(op)] + Print(x)
    case Binary(op, l, r) => Print(l) + [Word_(op)] + Print(r)
    case Call(f, a) => Print(f) + Print(a)
    case Group(b, t, rows) => [Event(Begin(b), t)] + PrintRows(rows) + [Event(End(b), NO_TOKEN)]
  }

  function PrintRows(rows: Exprs): seq<Event> {
    if rows.NoRows? then [] else [Event(RowBegin, NO_TOKEN)] + Print(rows.first) + [Event(RowEnd, NO_TOKEN)] + PrintRows(rows.rest)
  }

  /** One associativity for every precedence, and no symbol that is both postfix and binary. */
  ghost predicate Regular(p: Table) {
    && (forall s, t {:trigger p.binary(s), p.binary(t)} :: p.binary(s).Infix? && p.binary(t).Infix? && p.binary(s).precedence == p.binary(t).precedence ==>
          p.binary(s) == p.binary(t))
    && (forall s :: p.binary(s).Infix? ==> !p.postfix(s))
  }

  /** The binary operators every system has; the two that assign bind weakest, to the right. */
  function BuiltinInfix(s: string): Infix {
    if s == "=" || s == "?=" then Infix(1, true)
    else if s == "or" then Infix(2, false)
    else if s == "and" then Infix(3, false)
    else if s == "==" || s == "!=" then Infix(7, false)
    else if s == ">" || s == "<" || s == ">=" || s == "<=" then Infix(8, false)
    else if s == "+" || s == "-" then Infix(11, false)
    else if s == "*" || s == "/" || s == "%" then Infix(12, false)
    else NotInfix
  }

  predicate BuiltinPrefix(s: string) { s == "+" || s == "-" || s == "not" || s == "++" || s == "--" }

  /** No postfix operator is built in. */
  function Builtin(tooLarge: string -> bool): Table { Table(s => BuiltinPrefix(s), _ => false, s => BuiltinInfix(s), tooLarge) }

  lemma BuiltinRegular(tooLarge: string -> bool)
    ensures Regular(Builtin(tooLarge))
  {}

  /** The tree's tokens are what they stand for. */
  predicate Proper(p: Table, e: Expr) {
    match e
    case Leaf(t) => !(t.isOp && (t.text in ["=", "?="] || p.prefix(t.text))) && !p.tooLarge(t.text)
    case Unary(op, x, post) => op.isOp && (if post then p.postfix(op.text) else p.prefix(op.text)) && Proper(p, x)
    case Binary(op, l, r) => op.isOp && p.binary(op.text).Infix? && Proper(p, l) && Proper(p, r)
    case Call(f, a) => Proper(p, f) && a.Group? && Proper(p, a)
    case Group(_, t, rows) => !t.isOp && ProperRows(p, rows)
  }

  predicate ProperRows(p: Table, rows: Exprs) { rows.NoRows? || (Proper(p, rows.first) && ProperRows(p, rows.rest)) }

  /** What a left operand of the operator may bind no weaker than. */
  function LeftMin(f: Infix): nat
    requires f.Infix?
  {
    if f.right then f.precedence + 1 else f.precedence
  }

  datatype Place = AsOperand(min: nat) | AsPrefixed | AsBase

  /** The tree needs no brackets where it stands: under an operator, under a prefix, or as the base of a postfix or a call. */
  predicate Placed(p: Table, e: Expr, at: Place) {
    match e
    case Leaf(_) => true
    case Group(_, _, rows) => PlacedRows(p, rows)
    case Call(f, a) => Placed(p, f, AsBase) && Placed(p, a, AsBase)
    case Unary(_, x, post) => if post then Placed(p, x, AsBase) else !at.AsBase? && Placed(p, x, AsPrefixed)
    case Binary(op, l, r) =>
      var f := p.binary(op.text);
      at.AsOperand? && f.Infix? && at.min <= f.precedence && Placed(p, l, AsOperand(LeftMin(f))) && Placed(p, r, AsOperand(NextMin(f)))
  }

  predicate PlacedRows(p: Table, rows: Exprs) { rows.NoRows? || (Placed(p, rows.first, AsOperand(0)) && PlacedRows(p, rows.rest)) }

  /** How much deeper the parser recurses than where it starts the tree, and no row nests too deep. */
  function Climb(e: Expr): nat
    decreases e, 3
  {
    1 + ClimbSpine(e)
  }

  function ClimbSpine(e: Expr): nat
    decreases e, 2
  {
    if e.Binary? then Max(ClimbSpine(e.left), Climb(e.right)) else ClimbPrefix(e)
  }

  function ClimbPrefix(e: Expr): nat
    decreases e, 1
  {
    1 + if e.Unary? && !e.post then ClimbPrefix(e.operand) else ClimbBase(e)
  }

  function ClimbBase(e: Expr): nat
    decreases e, 0
  {
    match e
    case Unary(_, x, true) => ClimbBase(x)
    case Call(f, a) => Max(ClimbBase(f), ClimbBase(a))
    case Group(_, _, rows) => ClimbRows(rows)
    case _ => 0
  }

  function ClimbRows(rows: Exprs): nat { if rows.NoRows? then 0 else Max(Climb(rows.first), ClimbRows(rows.rest)) }

  predicate Shallow(e: Expr) {
    match e
    case Leaf(_) => true
    case Unary(_, x, _) => Shallow(x)
    case Binary(_, l, r) => Shallow(l) && Shallow(r)
    case Call(f, a) => Shallow(f) && Shallow(a)
    case Group(_, _, rows) => ShallowRows(rows)
  }

  predicate ShallowRows(rows: Exprs) { rows.NoRows? || (Depth(rows.first) <= MAX_DEPTH && Shallow(rows.first) && ShallowRows(rows.rest)) }

  // --- reading printed trees ----------------------------------------------------------------------------

  predicate At(evs: seq<Event>, i: nat, part: seq<Event>) { i + |part| <= |evs| && evs[i..i + |part|] == part }

  lemma AtSplit(evs: seq<Event>, i: nat, a: seq<Event>, b: seq<Event>)
    requires At(evs, i, a + b)
    ensures At(evs, i, a) && At(evs, i + |a|, b)
  {
    var all := evs[i..i + |a + b|];
    assert evs[i..i + |a|] == all[..|a|] == a;
    assert evs[i + |a|..i + |a| + |b|] == all[|a|..] == b;
  }

  lemma AtFirst(evs: seq<Event>, i: nat, part: seq<Event>)
    requires At(evs, i, part) && |part| > 0
    ensures i < |evs| && Peek(evs, i) == part[0]
  {
    assert evs[i..i + |part|][0] == part[0];
  }

  /** Nothing here continues an operand: no postfix operator, no call. */
  predicate EndsBase(p: Table, evs: seq<Event>, k: nat) {
    k >= |evs| || (!(evs[k].tok.isOp && p.postfix(evs[k].tok.text)) && !evs[k].kind.Begin?)
  }

  /** Nor a binary operator that binds at least as strongly as `min`. */
  predicate EndsExpr(p: Table, evs: seq<Event>, k: nat, min: nat) {
    EndsBase(p, evs, k) && (k >= |evs| || !evs[k].tok.isOp || p.binary(evs[k].tok.text).NotInfix? || p.binary(evs[k].tok.text).precedence < min)
  }

  lemma {:induction false} PrintStarts(e: Expr)
    ensures Print(e)[0].kind.Word? || Print(e)[0].kind.Begin?
  {
    match e
    case Unary(_, x, true) => PrintStarts(x);
    case Binary(_, l, _) => PrintStarts(l);
    case Call(f, _) => PrintStarts(f);
    case _ =>
  }

  /** An operand without a prefix does not start with a prefix operator. */
  lemma {:induction false} BaseStarts(p: Table, e: Expr)
    requires Proper(p, e) && Placed(p, e, AsBase)
    ensures !(Print(e)[0].tok.isOp && p.prefix(Print(e)[0].tok.text))
  {
    match e
    case Unary(_, x, _) => BaseStarts(p, x);
    case Call(f, _) => BaseStarts(p, f);
    case _ =>
  }

  lemma {:induction false} BracketIs(p: Table, evs: seq<Event>, i: nat, depth: nat, e: Expr)
    requires Regular(p) && e.Group? && Proper(p, e) && Placed(p, e, AsBase) && Shallow(e) && At(evs, i, Print(e)) && depth + ClimbBase(e) <= MAX_DEPTH
    ensures Peek(evs, i).kind.Begin? && ParseBracket(p, evs, i, depth) == Ok(e, i + |Print(e)|)
    decreases e, 0
  {
    hide ParseRows;
    var open, rows, close := [Event(Begin(e.bracket), e.open)], PrintRows(e.rows), [Event(End(e.bracket), NO_TOKEN)];
    AtSplit(evs, i, open + rows, close);
    AtSplit(evs, i, open, rows);
    AtFirst(evs, i, open);
    AtFirst(evs, i + 1 + |rows|, close);
    RowsAre(p, evs, i + 1, depth, e.rows);
  }

  lemma AtThree(evs: seq<Event>, i: nat, a: seq<Event>, b: seq<Event>, c: seq<Event>)
    requires At(evs, i, a + b + c)
    ensures At(evs, i, a) && At(evs, i + |a|, b) && At(evs, i + |a| + |b|, c)
  {
    AtSplit(evs, i, a + b, c);
    AtSplit(evs, i, a, b);
  }

  /** Where the parts of the first row lie. */
  lemma RowAt(evs: seq<Event>, i: nat, rows: Exprs)
    requires At(evs, i, PrintRows(rows)) && rows.Rows?
    ensures var k := i + 1 + |Print(rows.first)|;
      && Peek(evs, i).kind.RowBegin? && i < |evs| && At(evs, i + 1, Print(rows.first))
      && Peek(evs, k) == Event(RowEnd, NO_TOKEN) && At(evs, k + 1, PrintRows(rows.rest))
      && i + |PrintRows(rows)| == k + 1 + |PrintRows(rows.rest)|
  {
    hide Print, PrintRows;
    var begin, row, end, rest := [Event(RowBegin, NO_TOKEN)], Print(rows.first), [Event(RowEnd, NO_TOKEN)], PrintRows(rows.rest);
    PrintRowsIs(rows);
    AtSplit(evs, i, begin + row + end, rest);
    AtThree(evs, i, begin, row, end);
    AtFirst(evs, i, begin);
    AtFirst(evs, i + 1 + |row|, end);
  }

  lemma PrintRowsIs(rows: Exprs)
    requires rows.Rows?
    ensures PrintRows(rows) == [Event(RowBegin, NO_TOKEN)] + Print(rows.first) + [Event(RowEnd, NO_TOKEN)] + PrintRows(rows.rest)
  {}

  lemma {:induction false} RowsAre(p: Table, evs: seq<Event>, i: nat, depth: nat, rows: Exprs)
    requires Regular(p) && ProperRows(p, rows) && PlacedRows(p, rows) && ShallowRows(rows) && At(evs, i, PrintRows(rows)) && depth + ClimbRows(rows) <= MAX_DEPTH
    requires !Peek(evs, i + |PrintRows(rows)|).kind.RowBegin?
    ensures ParseRows(p, evs, i, depth) == OkRows(rows, i + |PrintRows(rows)|)
    decreases rows
  {
    hide ParseExpr, ParseRow, ParseRows, Print, PrintRows, Regular, Proper, ProperRows, Placed, PlacedRows, Shallow, ShallowRows, Climb, ClimbRows, Depth, At;
    if rows.NoRows? {
      NoRowsAre(p, evs, i, depth);
    } else {
      RowParts(p, rows, depth);
      RowAt(evs, i, rows);
      RowStops(p, evs, i + 1 + |Print(rows.first)|);
      var k := i + 1 + |Print(rows.first)|;
      ExprIs(p, evs, i + 1, depth, 0, rows.first);
      RowEnds(p, evs, i + 1, depth, rows.first, k);
      RowsAre(p, evs, k + 1, depth, rows.rest);
      RowsTake(p, evs, i, depth);
    }
  }

  lemma NoRowsAre(p: Table, evs: seq<Event>, i: nat, depth: nat)
    requires !Peek(evs, i + |PrintRows(NoRows)|).kind.RowBegin?
    ensures ParseRows(p, evs, i, depth) == OkRows(NoRows, i + |PrintRows(NoRows)|)
  {}

  lemma RowParts(p: Table, rows: Exprs, depth: nat)
    requires rows.Rows? && ProperRows(p, rows) && PlacedRows(p, rows) && ShallowRows(rows) && depth + ClimbRows(rows) <= MAX_DEPTH
    ensures Proper(p, rows.first) && Placed(p, rows.first, AsOperand(0)) && Shallow(rows.first) && depth + Climb(rows.first) <= MAX_DEPTH
    ensures ProperRows(p, rows.rest) && PlacedRows(p, rows.rest) && ShallowRows(rows.rest) && depth + ClimbRows(rows.rest) <= MAX_DEPTH
    ensures Depth(rows.first) <= MAX_DEPTH
  {}

  lemma RowStops(p: Table, evs: seq<Event>, k: nat)
    requires Peek(evs, k) == Event(RowEnd, NO_TOKEN)
    ensures EndsExpr(p, evs, k, 0)
  {}

  lemma RowEnds(p: Table, evs: seq<Event>, i: nat, depth: nat, e: Expr, k: nat)
    requires ParseExpr(p, evs, i, depth, 0) == Ok(e, k) && Depth(e) <= MAX_DEPTH && Peek(evs, k).kind.RowEnd?
    ensures ParseRow(p, evs, i, depth) == Ok(e, k + 1)
  {
    hide ParseExpr;
  }

  lemma RowsTake(p: Table, evs: seq<Event>, i: nat, depth: nat)
    requires Peek(evs, i).kind.RowBegin?
    ensures var r := ParseRow(p, evs, i + 1, depth);
      r.Ok? ==> var rest := ParseRows(p, evs, r.next, depth); rest.OkRows? ==> ParseRows(p, evs, i, depth) == OkRows(Rows(r.expr, rest.rows), rest.next)
  {
    hide ParseRow;
  }

  /** What holds of a tree as a base holds of the base inside it. */
  lemma BaseParts(p: Table, e: Expr, depth: nat)
    requires Proper(p, e) && Placed(p, e, AsBase) && Shallow(e) && depth + ClimbBase(e) <= MAX_DEPTH
    ensures !e.Binary? && (e.Unary? ==> e.post && e.op.isOp && p.postfix(e.op.text))
    ensures e.Unary? ==> Proper(p, e.operand) && Placed(p, e.operand, AsBase) && Shallow(e.operand) && depth + ClimbBase(e.operand) <= MAX_DEPTH
    ensures e.Call? ==> Proper(p, e.callee) && Placed(p, e.callee, AsBase) && Shallow(e.callee) && depth + ClimbBase(e.callee) <= MAX_DEPTH
    ensures e.Call? ==> e.args.Group? && Proper(p, e.args) && Placed(p, e.args, AsBase) && Shallow(e.args) && depth + ClimbBase(e.args) <= MAX_DEPTH
  {}

  lemma PrimaryStarts(p: Table, evs: seq<Event>, i: nat, depth: nat)
    ensures var r := ParsePrimary(p, evs, i, depth); r.Ok? ==> ParsePostfix(p, evs, i, depth) == PostfixLoop(p, evs, r.next, depth, r.expr)
  {
    hide ParsePrimary, PostfixLoop;
  }

  lemma LeafIs(p: Table, evs: seq<Event>, i: nat, depth: nat, t: Token)
    requires Proper(p, Leaf(t)) && At(evs, i, Print(Leaf(t)))
    ensures ParsePrimary(p, evs, i, depth) == Ok(Leaf(t), i + 1)
  {
    AtFirst(evs, i, Print(Leaf(t)));
  }

  lemma PrimaryBracket(p: Table, evs: seq<Event>, i: nat, depth: nat)
    requires Peek(evs, i).kind.Begin?
    ensures ParsePrimary(p, evs, i, depth) == ParseBracket(p, evs, i, depth)
  {
    hide ParseBracket;
  }

  lemma PostfixTakes(p: Table, evs: seq<Event>, i: nat, depth: nat, v: Expr)
    requires i < |evs| && evs[i].tok.isOp && p.postfix(evs[i].tok.text)
    ensures PostfixLoop(p, evs, i, depth, v) == PostfixLoop(p, evs, i + 1, depth, Unary(evs[i].tok, v, true))
  {}

  lemma PostfixCalls(p: Table, evs: seq<Event>, i: nat, depth: nat, v: Expr)
    requires i < |evs| && !evs[i].tok.isOp && evs[i].kind.Begin?
    ensures var r := ParseBracket(p, evs, i, depth); r.Ok? ==> PostfixLoop(p, evs, i, depth, v) == PostfixLoop(p, evs, r.next, depth, Call(v, r.expr))
  {
    hide ParseBracket;
  }

  /** A base is read up to its end, and the loop goes on from there with it. */
  lemma {:induction false} BaseIs(p: Table, evs: seq<Event>, i: nat, depth: nat, e: Expr)
    requires Regular(p) && Proper(p, e) && Placed(p, e, AsBase) && Shallow(e) && At(evs, i, Print(e)) && depth + ClimbBase(e) <= MAX_DEPTH
    ensures ParsePostfix(p, evs, i, depth) == PostfixLoop(p, evs, i + |Print(e)|, depth, e)
    decreases e, 1
  {
    hide Regular, Proper, Placed, Shallow, ClimbBase, ParsePostfix, PostfixLoop, ParsePrimary, ParseBracket, At;
    BaseParts(p, e, depth);
    match e
    case Leaf(t) =>
      LeafIs(p, evs, i, depth, t);
      PrimaryStarts(p, evs, i, depth);
    case Group(_, _, _) =>
      BracketIs(p, evs, i, depth, e);
      PrimaryBracket(p, evs, i, depth);
      PrimaryStarts(p, evs, i, depth);
    case Unary(op, x, _) =>
      AtSplit(evs, i, Print(x), [Word_(op)]);
      AtFirst(evs, i + |Print(x)|, [Word_(op)]);
      BaseIs(p, evs, i, depth, x);
      PostfixTakes(p, evs, i + |Print(x)|, depth, x);
    case Call(f, a) =>
      AtSplit(evs, i, Print(f), Print(a));
      BaseIs(p, evs, i, depth, f);
      BracketIs(p, evs, i + |Print(f)|, depth, a);
      AtFirst(evs, i + |Print(f)|, Print(a));
      GroupOpen(p, a);
      PostfixCalls(p, evs, i + |Print(f)|, depth, f);
  }

  lemma GroupOpen(p: Table, e: Expr)
    requires e.Group? && Proper(p, e)
    ensures Print(e)[0] == Event(Begin(e.bracket), e.open) && !e.open.isOp
  {}

  lemma PrefixParts(p: Table, e: Expr, depth: nat)
    requires Proper(p, e) && Placed(p, e, AsPrefixed) && Shallow(e) && depth + ClimbPrefix(e) <= MAX_DEPTH
    ensures depth < MAX_DEPTH && !e.Binary?
    ensures if e.Unary? && !e.post then
        && e.op.isOp && p.prefix(e.op.text) && Proper(p, e.operand) && Placed(p, e.operand, AsPrefixed) && Shallow(e.operand)
        && depth + 1 + ClimbPrefix(e.operand) <= MAX_DEPTH
      else Placed(p, e, AsBase) && depth + 1 + ClimbBase(e) <= MAX_DEPTH
  {}

  lemma PrefixTakes(p: Table, evs: seq<Event>, i: nat, depth: nat)
    requires depth < MAX_DEPTH && i < |evs| && evs[i].tok.isOp && p.prefix(evs[i].tok.text) && !AtRowEnd(evs, i + 1)
    ensures var r := ParsePrefix(p, evs, i + 1, depth + 1); r.Ok? ==> ParsePrefix(p, evs, i, depth) == Ok(Unary(evs[i].tok, r.expr, false), r.next)
  {}

  lemma PrefixNone(p: Table, evs: seq<Event>, i: nat, depth: nat)
    requires depth < MAX_DEPTH && !(IsOp(evs, i) && p.prefix(Peek(evs, i).tok.text))
    ensures ParsePrefix(p, evs, i, depth) == ParsePostfix(p, evs, i, depth + 1)
  {
    hide ParsePostfix;
  }

  lemma PostfixStops(p: Table, evs: seq<Event>, i: nat, depth: nat, v: Expr)
    requires EndsBase(p, evs, i)
    ensures PostfixLoop(p, evs, i, depth, v) == Ok(v, i)
  {}

  lemma {:induction false} PrefixIs(p: Table, evs: seq<Event>, i: nat, depth: nat, e: Expr)
    requires Regular(p) && Proper(p, e) && Placed(p, e, AsPrefixed) && Shallow(e) && At(evs, i, Print(e)) && depth + ClimbPrefix(e) <= MAX_DEPTH
    requires EndsBase(p, evs, i + |Print(e)|)
    ensures ParsePrefix(p, evs, i, depth) == Ok(e, i + |Print(e)|)
    decreases e, 2
  {
    hide Regular, Proper, Placed, Shallow, ClimbPrefix, ClimbBase, ParsePrefix, ParsePostfix, PostfixLoop, At, EndsBase;
    PrefixParts(p, e, depth);
    AtFirst(evs, i, Print(e));
    if e.Unary? && !e.post {
      AtSplit(evs, i, [Word_(e.op)], Print(e.operand));
      AtFirst(evs, i + 1, Print(e.operand));
      PrintStarts(e.operand);
      PrefixIs(p, evs, i + 1, depth + 1, e.operand);
      PrefixTakes(p, evs, i, depth);
    } else {
      BaseStarts(p, e);
      PrefixNone(p, evs, i, depth);
      BaseIs(p, evs, i, depth + 1, e);
      PostfixStops(p, evs, i + |Print(e)|, depth + 1, e);
    }
  }

  /** An operand and everything the loop joins to it. */
  function Spine(p: Table, evs: seq<Event>, i: nat, depth: nat, min: nat): Parsed {
    match ParsePrefix(p, evs, i, depth)
    case Bad(err) => Bad(err)
    case Ok(lhs, j) => BinaryLoop(p, evs, j, depth, min, lhs)
  }

  /** No operator that the right operand of `e` would take comes next. */
  predicate Closed(p: Table, evs: seq<Event>, k: nat, e: Expr) {
    EndsBase(p, evs, k) && (e.Binary? && p.binary(e.op.text).Infix? ==> EndsExpr(p, evs, k, NextMin(p.binary(e.op.text))))
  }

  lemma {:induction false} SpineIs(p: Table, evs: seq<Event>, i: nat, depth: nat, min: nat, e: Expr)
    requires Regular(p) && Proper(p, e) && Placed(p, e, AsOperand(min)) && Shallow(e) && At(evs, i, Print(e)) && depth + ClimbSpine(e) <= MAX_DEPTH
    requires Closed(p, evs, i + |Print(e)|, e)
    ensures Spine(p, evs, i, depth, min) == BinaryLoop(p, evs, i + |Print(e)|, depth, min, e)
    decreases e, 3
  {
    hide ParsePrefix, ParseExpr, BinaryLoop, Spine, Regular, Proper, Placed, Shallow, ClimbSpine, ClimbPrefix, Climb, Closed, EndsExpr, EndsBase, AtRowEnd, At;
    if e.Binary? {
      hide Print;
      var f, at := p.binary(e.op.text), i + |Print(e.left)|;
      BinaryParts(p, e, min, depth);
      BinaryAt(evs, i, e);
      BinaryClosed(p, evs, at, i + |Print(e)|, e);
      SpineIs(p, evs, i, depth, min, e.left);
      ExprIs(p, evs, at + 1, depth, NextMin(f), e.right);
      LoopTakes(p, evs, at, depth, min, e.left, e.right, i + |Print(e)|);
    } else {
      SingleParts(p, evs, i + |Print(e)|, e, min, depth);
      PrefixIs(p, evs, i, depth, e);
      SpineStarts(p, evs, i, depth, min);
    }
  }

  lemma SingleParts(p: Table, evs: seq<Event>, k: nat, e: Expr, min: nat, depth: nat)
    requires !e.Binary? && Placed(p, e, AsOperand(min)) && depth + ClimbSpine(e) <= MAX_DEPTH && Closed(p, evs, k, e)
    ensures Placed(p, e, AsPrefixed) && depth + ClimbPrefix(e) <= MAX_DEPTH && EndsBase(p, evs, k)
  {}

  lemma SpineStarts(p: Table, evs: seq<Event>, i: nat, depth: nat, min: nat)
    ensures var r := ParsePrefix(p, evs, i, depth); r.Ok? ==> Spine(p, evs, i, depth, min) == BinaryLoop(p, evs, r.next, depth, min, r.expr)
  {
    hide ParsePrefix, BinaryLoop;
  }

  lemma BinaryAt(evs: seq<Event>, i: nat, e: Expr)
    requires e.Binary? && At(evs, i, Print(e))
    ensures var at := i + |Print(e.left)|;
      && At(evs, i, Print(e.left)) && at < |evs| && evs[at] == Word_(e.op) && At(evs, at + 1, Print(e.right))
      && !AtRowEnd(evs, at + 1) && i + |Print(e)| == at + 1 + |Print(e.right)|
  {
    hide At;
    AtThree(evs, i, Print(e.left), [Word_(e.op)], Print(e.right));
    AtFirst(evs, i + |Print(e.left)|, [Word_(e.op)]);
    AtFirst(evs, i + |Print(e.left)| + 1, Print(e.right));
    PrintStarts(e.right);
  }

  /** Both operands of a binary operator end where they are followed by it, and by what follows the whole. */
  lemma BinaryClosed(p: Table, evs: seq<Event>, at: nat, k: nat, e: Expr)
    requires Regular(p) && e.Binary? && p.binary(e.op.text).Infix? && Placed(p, e.left, AsOperand(LeftMin(p.binary(e.op.text))))
    requires at < |evs| && evs[at] == Word_(e.op) && Closed(p, evs, k, e)
    ensures Closed(p, evs, at, e.left) && EndsExpr(p, evs, k, NextMin(p.binary(e.op.text)))
  {
    hide Placed, Regular;
    LeftCloses(p, e.left, e.op, p.binary(e.op.text));
  }

  lemma LoopTakes(p: Table, evs: seq<Event>, at: nat, depth: nat, min: nat, lhs: Expr, rhs: Expr, next: nat)
    requires at < |evs| && evs[at].tok.isOp && p.binary(evs[at].tok.text).Infix? && min <= p.binary(evs[at].tok.text).precedence
    requires !AtRowEnd(evs, at + 1) && ParseExpr(p, evs, at + 1, depth, NextMin(p.binary(evs[at].tok.text))) == Ok(rhs, next)
    ensures BinaryLoop(p, evs, at, depth, min, lhs) == BinaryLoop(p, evs, next, depth, min, Binary(evs[at].tok, lhs, rhs))
  {
    hide ParseExpr;
  }

  lemma BinaryParts(p: Table, e: Expr, min: nat, depth: nat)
    requires e.Binary? && Proper(p, e) && Placed(p, e, AsOperand(min)) && Shallow(e) && depth + ClimbSpine(e) <= MAX_DEPTH
    ensures var f := p.binary(e.op.text);
      && f.Infix? && min <= f.precedence && e.op.isOp
      && Proper(p, e.left) && Placed(p, e.left, AsOperand(LeftMin(f))) && Placed(p, e.left, AsOperand(min)) && Shallow(e.left)
      && Proper(p, e.right) && Placed(p, e.right, AsOperand(NextMin(f))) && Shallow(e.right)
      && depth + ClimbSpine(e.left) <= MAX_DEPTH && depth + Climb(e.right) <= MAX_DEPTH
  {
    PlacedWeaker(p, e.left, LeftMin(p.binary(e.op.text)), min);
  }

  lemma PlacedWeaker(p: Table, e: Expr, strong: nat, weak: nat)
    requires Placed(p, e, AsOperand(strong)) && weak <= strong
    ensures Placed(p, e, AsOperand(weak))
  {}

  /** With one associativity for every precedence, a left operand never takes the operator behind it. */
  lemma LeftCloses(p: Table, l: Expr, op: Token, f: Infix)
    requires Regular(p) && f == p.binary(op.text) && f.Infix? && Placed(p, l, AsOperand(LeftMin(f)))
    ensures !p.postfix(op.text)
    ensures l.Binary? && p.binary(l.op.text).Infix? ==> f.precedence < NextMin(p.binary(l.op.text))
  {
    if l.Binary? && p.binary(l.op.text).precedence == f.precedence { assert p.binary(op.text) == p.binary(l.op.text); }
  }

  lemma {:induction false} ExprIs(p: Table, evs: seq<Event>, i: nat, depth: nat, min: nat, e: Expr)
    requires Regular(p) && Proper(p, e) && Placed(p, e, AsOperand(min)) && Shallow(e) && At(evs, i, Print(e)) && depth + Climb(e) <= MAX_DEPTH
    requires EndsExpr(p, evs, i + |Print(e)|, min)
    ensures ParseExpr(p, evs, i, depth, min) == Ok(e, i + |Print(e)|)
    decreases e, 4
  {
    hide Spine, BinaryLoop, Regular, Proper, Placed, Shallow, ClimbSpine, At, EndsBase, Print;
    ExprClosed(p, evs, i + |Print(e)|, min, e, depth);
    SpineIs(p, evs, i, depth + 1, min, e);
    LoopStops(p, evs, i + |Print(e)|, depth + 1, min, e);
    ExprSpine(p, evs, i, depth, min);
  }

  lemma ExprClosed(p: Table, evs: seq<Event>, k: nat, min: nat, e: Expr, depth: nat)
    requires EndsExpr(p, evs, k, min) && Placed(p, e, AsOperand(min)) && depth + Climb(e) <= MAX_DEPTH
    ensures Closed(p, evs, k, e) && depth < MAX_DEPTH && depth + 1 + ClimbSpine(e) <= MAX_DEPTH
  {}

  lemma LoopStops(p: Table, evs: seq<Event>, k: nat, depth: nat, min: nat, e: Expr)
    requires EndsExpr(p, evs, k, min)
    ensures BinaryLoop(p, evs, k, depth, min, e) == Ok(e, k)
  {}

  lemma ExprSpine(p: Table, evs: seq<Event>, i: nat, depth: nat, min: nat)
    requires depth < MAX_DEPTH
    ensures ParseExpr(p, evs, i, depth, min) == Spine(p, evs, i, depth + 1, min)
  {
    hide ParsePrefix, BinaryLoop;
  }

  // --- whole scripts ----------------------------------------------------------------------------------

  /** All rows of a script, under one root. */
  function BuildAst(p: Table, evs: seq<Event>): ParsedRows { ParseRows(p, evs, 0, 0) }

  /** A printed script is parsed back, row by row, whatever the table, as long as no precedence mixes associativities. */
  lemma PrintParse(p: Table, rows: Exprs)
    requires Regular(p) && ProperRows(p, rows) && PlacedRows(p, rows) && ShallowRows(rows) && ClimbRows(rows) <= MAX_DEPTH
    ensures BuildAst(p, PrintRows(rows)) == OkRows(rows, |PrintRows(rows)|)
  {
    hide ParseRows, PrintRows;
    var evs := PrintRows(rows);
    assert evs[0..0 + |evs|] == evs;
    RowsAre(p, evs, 0, 0, rows);
  }

  // --- nothing else is parsed --------------------------------------------------------------------------

  /** No binary operator that binds at least as strongly as `min` comes next. */
  predicate Stops(p: Table, evs: seq<Event>, k: nat, min: nat) {
    k >= |evs| || !evs[k].tok.isOp || p.binary(evs[k].tok.text).NotInfix? || p.binary(evs[k].tok.text).precedence < min
  }

  predicate Settled(p: Table, evs: seq<Event>, k: nat, e: Expr) {
    e.Binary? && p.binary(e.op.text).Infix? ==> Stops(p, evs, k, NextMin(p.binary(e.op.text)))
  }

  lemma {:induction false} BracketPlaced(p: Table, evs: seq<Event>, i: nat, depth: nat)
    requires Regular(p) && Peek(evs, i).kind.Begin?
    ensures var r := ParseBracket(p, evs, i, depth); r.Ok? ==> Placed(p, r.expr, AsBase)
    decreases Left(evs, i), 0
  {
    hide ParseRows;
    RowsPlaced(p, evs, i + 1, depth);
  }

  lemma {:induction false} RowsPlaced(p: Table, evs: seq<Event>, i: nat, depth: nat)
    requires Regular(p)
    ensures var r := ParseRows(p, evs, i, depth); r.OkRows? ==> PlacedRows(p, r.rows)
    decreases Left(evs, i), 7
  {
    hide ParseExpr, Regular, Placed;
    if Peek(evs, i).kind.RowBegin? {
      ExprPlaced(p, evs, i + 1, depth, 0);
      var r := ParseRow(p, evs, i + 1, depth);
      if r.Ok? { RowsPlaced(p, evs, r.next, depth); }
    }
  }

  lemma {:induction false} PostfixPlaced(p: Table, evs: seq<Event>, i: nat, depth: nat)
    requires Regular(p)
    ensures var r := ParsePostfix(p, evs, i, depth); r.Ok? ==> Placed(p, r.expr, AsBase)
    decreases Left(evs, i), 2
  {
    hide ParseBracket, PostfixLoop, Regular;
    if Peek(evs, i).kind.Begin? { BracketPlaced(p, evs, i, depth); }
    var r := ParsePrimary(p, evs, i, depth);
    if r.Ok? { PostfixLoopPlaced(p, evs, r.next, depth, r.expr); }
  }

  lemma {:induction false} PostfixLoopPlaced(p: Table, evs: seq<Event>, i: nat, depth: nat, v: Expr)
    requires Regular(p) && Placed(p, v, AsBase)
    ensures var r := PostfixLoop(p, evs, i, depth, v); r.Ok? ==> Placed(p, r.expr, AsBase)
    decreases Left(evs, i), 1
  {
    hide ParseBracket, Regular;
    if i < |evs| {
      if evs[i].tok.isOp && p.postfix(evs[i].tok.text) {
        PostfixLoopPlaced(p, evs, i + 1, depth, Unary(evs[i].tok, v, true));
      } else if evs[i].kind.Begin? {
        BracketPlaced(p, evs, i, depth);
        var r := ParseBracket(p, evs, i, depth);
        if r.Ok? { PostfixLoopPlaced(p, evs, r.next, depth, Call(v, r.expr)); }
      }
    }
  }

  lemma {:induction false} PrefixPlaced(p: Table, evs: seq<Event>, i: nat, depth: nat)
    requires Regular(p)
    ensures var r := ParsePrefix(p, evs, i, depth); r.Ok? ==> Placed(p, r.expr, AsPrefixed) && !r.expr.Binary?
    decreases Left(evs, i), 3
  {
    hide ParsePostfix, Regular;
    if depth < MAX_DEPTH {
      if i < |evs| && evs[i].tok.isOp && p.prefix(evs[i].tok.text) {
        PrefixPlaced(p, evs, i + 1, depth + 1);
      } else {
        PostfixPlaced(p, evs, i, depth + 1);
        var r := ParsePostfix(p, evs, i, depth + 1);
        if r.Ok? { BasePrefixed(p, r.expr); }
      }
    }
  }

  lemma BasePrefixed(p: Table, e: Expr)
    requires Placed(p, e, AsBase)
    ensures Placed(p, e, AsPrefixed) && !e.Binary?
  {}

  lemma PrefixedOperand(p: Table, e: Expr, min: nat)
    requires Placed(p, e, AsPrefixed)
    ensures Placed(p, e, AsOperand(min)) && !e.Binary?
  {}

  lemma {:induction false} ExprPlaced(p: Table, evs: seq<Event>, i: nat, depth: nat, min: nat)
    requires Regular(p)
    ensures var r := ParseExpr(p, evs, i, depth, min); r.Ok? ==> Placed(p, r.expr, AsOperand(min)) && Stops(p, evs, r.next, min)
    decreases Left(evs, i), 5
  {
    hide ParsePrefix, BinaryLoop, Regular, Placed;
    PrefixPlaced(p, evs, i, depth + 1);
    var r := ParsePrefix(p, evs, i, depth + 1);
    if r.Ok? {
      PrefixedOperand(p, r.expr, min);
      LoopPlaced(p, evs, r.next, depth + 1, min, r.expr);
    }
  }

  lemma {:induction false} LoopPlaced(p: Table, evs: seq<Event>, i: nat, depth: nat, min: nat, lhs: Expr)
    requires Regular(p) && Placed(p, lhs, AsOperand(min)) && Settled(p, evs, i, lhs)
    ensures var r := BinaryLoop(p, evs, i, depth, min, lhs); r.Ok? ==> Placed(p, r.expr, AsOperand(min)) && Stops(p, evs, r.next, min)
    decreases Left(evs, i), 4
  {
    hide ParseExpr, Regular, Placed;
    if !Stops(p, evs, i, min) && !AtRowEnd(evs, i + 1) {
      var tok := evs[i].tok;
      var f := p.binary(tok.text);
      ExprPlaced(p, evs, i + 1, depth, NextMin(f));
      var r := ParseExpr(p, evs, i + 1, depth, NextMin(f));
      if r.Ok? {
        LeftPlaced(p, evs, i, lhs, min);
        BinaryPlaced(p, tok, lhs, r.expr, min);
        LoopPlaced(p, evs, r.next, depth, min, Binary(tok, lhs, r.expr));
      }
    }
  }

  /** The operator that comes next may take what was read so far as its left operand. */
  lemma LeftPlaced(p: Table, evs: seq<Event>, i: nat, lhs: Expr, min: nat)
    requires Regular(p) && Placed(p, lhs, AsOperand(min)) && Settled(p, evs, i, lhs) && i < |evs| && evs[i].tok.isOp && p.binary(evs[i].tok.text).Infix?
    ensures Placed(p, lhs, AsOperand(LeftMin(p.binary(evs[i].tok.text))))
  {
    var f := p.binary(evs[i].tok.text);
    if lhs.Binary? && p.binary(lhs.op.text).precedence == f.precedence { assert p.binary(lhs.op.text) == f; }
  }

  lemma BinaryPlaced(p: Table, op: Token, l: Expr, r: Expr, min: nat)
    requires p.binary(op.text).Infix? && min <= p.binary(op.text).precedence
    requires Placed(p, l, AsOperand(LeftMin(p.binary(op.text)))) && Placed(p, r, AsOperand(NextMin(p.binary(op.text))))
    ensures Placed(p, Binary(op, l, r), AsOperand(min))
  {}

  /** A script printed as it stands is parsed back exactly when every subtree may stand where it does. */
  lemma PrintParseExactly(p: Table, rows: Exprs)
    requires Regular(p) && ProperRows(p, rows) && ShallowRows(rows) && ClimbRows(rows) <= MAX_DEPTH
    ensures BuildAst(p, PrintRows(rows)) == OkRows(rows, |PrintRows(rows)|) <==> PlacedRows(p, rows)
  {
    RowsPlaced(p, PrintRows(rows), 0, 0);
    if PlacedRows(p, rows) { PrintParse(p, rows); }
  }

  // --- grouping ---------------------------------------------------------------------------------------------

  /** A parenthesised group of one element. */
  function Parens(e: Expr): Expr { Group(Tuple, NO_TOKEN, Rows(e, NoRows)) }

  /** Puts parentheses exactly where a subtree could not stand as it is. */
  function Regroup(p: Table, e: Expr, at: Place): Expr
    decreases e
  {
    match e
    case Leaf(_) => e
    case Group(b, t, rows) => Group(b, t, RegroupRows(p, rows))
    case Call(f, a) => Call(Regroup(p, f, AsBase), Regroup(p, a, AsBase))
    case Unary(op, x, post) =>
      var inner := Unary(op, Regroup(p, x, if post then AsBase else AsPrefixed), post);
      if !post && at.AsBase? then Parens(inner) else inner
    case Binary(op, l, r) =>
      var f := p.binary(op.text);
      if f.NotInfix? then e
      else
        var inner := Binary(op, Regroup(p, l, AsOperand(LeftMin(f))), Regroup(p, r, AsOperand(NextMin(f))));
        if at.AsOperand? && at.min <= f.precedence then inner else Parens(inner)
  }

  function RegroupRows(p: Table, rows: Exprs): Exprs
    decreases rows
  {
    if rows.NoRows? then NoRows else Rows(Regroup(p, rows.first, AsOperand(0)), RegroupRows(p, rows.rest))
  }

  /** The tree without groups of one element; the arguments of a call are no such group. */
  function Ungroup(e: Expr): Expr
    decreases e, 1
  {
    match e
    case Leaf(_) => e
    case Unary(op, x, post) => Unary(op, Ungroup(x), post)
    case Binary(op, l, r) => Binary(op, Ungroup(l), Ungroup(r))
    case Call(f, a) => Call(Ungroup(f), UngroupArgs(a))
    case Group(b, t, rows) => if b.Tuple? && rows.Rows? && rows.rest.NoRows? then Ungroup(rows.first) else Group(b, t, UngroupRows(rows))
  }

  function UngroupArgs(a: Expr): Expr
    decreases a, 2
  {
    if a.Group? then Group(a.bracket, a.open, UngroupRows(a.rows)) else Ungroup(a)
  }

  function UngroupRows(rows: Exprs): Exprs
    decreases rows
  {
    if rows.NoRows? then NoRows else Rows(Ungroup(rows.first), UngroupRows(rows.rest))
  }

  /** The result stands where it is put, and differs only in groups of one element. */
  lemma {:induction false} RegroupPlaced(p: Table, e: Expr, at: Place)
    requires Proper(p, e)
    ensures Placed(p, Regroup(p, e, at), at) && Proper(p, Regroup(p, e, at)) && (e.Group? ==> Regroup(p, e, at).Group?)
    decreases e
  {
    match e
    case Leaf(_) =>
    case Group(_, _, rows) => RegroupRowsPlaced(p, rows);
    case Call(f, a) => RegroupPlaced(p, f, AsBase); RegroupPlaced(p, a, AsBase);
    case Unary(_, x, post) => RegroupPlaced(p, x, if post then AsBase else AsPrefixed);
    case Binary(op, l, r) =>
      var f := p.binary(op.text);
      RegroupPlaced(p, l, AsOperand(LeftMin(f)));
      RegroupPlaced(p, r, AsOperand(NextMin(f)));
  }

  lemma {:induction false} RegroupRowsPlaced(p: Table, rows: Exprs)
    requires ProperRows(p, rows)
    ensures PlacedRows(p, RegroupRows(p, rows)) && ProperRows(p, RegroupRows(p, rows))
    decreases rows
  {
    if rows.Rows? {
      RegroupPlaced(p, rows.first, AsOperand(0));
      RegroupRowsPlaced(p, rows.rest);
    }
  }

  lemma {:induction false} RegroupSame(p: Table, e: Expr, at: Place)
    requires Proper(p, e)
    ensures Ungroup(Regroup(p, e, at)) == Ungroup(e) && (e.Group? ==> UngroupArgs(Regroup(p, e, at)) == UngroupArgs(e))
    decreases e
  {
    match e
    case Leaf(_) =>
    case Group(_, _, rows) => RegroupRowsSame(p, rows);
    case Call(f, a) => RegroupSame(p, f, AsBase); RegroupSame(p, a, AsBase);
    case Unary(_, x, post) => RegroupSame(p, x, if post then AsBase else AsPrefixed);
    case Binary(op, l, r) =>
      var f := p.binary(op.text);
      RegroupSame(p, l, AsOperand(LeftMin(f)));
      RegroupSame(p, r, AsOperand(NextMin(f)));
  }

  lemma {:induction false} RegroupRowsSame(p: Table, rows: Exprs)
    requires ProperRows(p, rows)
    ensures UngroupRows(RegroupRows(p, rows)) == UngroupRows(rows)
    decreases rows
  {
    if rows.Rows? {
      RegroupSame(p, rows.first, AsOperand(0));
      RegroupRowsSame(p, rows.rest);
    }
  }

  /** No parentheses are added to a tree that can stand without. */
  lemma {:induction false} RegroupNone(p: Table, e: Expr, at: Place)
    requires Placed(p, e, at)
    ensures Regroup(p, e, at) == e
    decreases e
  {
    match e
    case Leaf(_) =>
    case Group(_, _, rows) => RegroupNoneRows(p, rows);
    case Call(f, a) => RegroupNone(p, f, AsBase); RegroupNone(p, a, AsBase);
    case Unary(_, x, post) => RegroupNone(p, x, if post then AsBase else AsPrefixed);
    case Binary(op, l, r) =>
      var f := p.binary(op.text);
      RegroupNone(p, l, AsOperand(LeftMin(f)));
      RegroupNone(p, r, AsOperand(NextMin(f)));
  }

  lemma {:induction false} RegroupNoneRows(p: Table, rows: Exprs)
    requires PlacedRows(p, rows)
    ensures RegroupRows(p, rows) == rows
    decreases rows
  {
    if rows.Rows? {
      RegroupNone(p, rows.first, AsOperand(0));
      RegroupNoneRows(p, rows.rest);
    }
  }

  /** Any script prints, with only the parentheses it needs, to events that parse to the same script up to groups of one element. */
  lemma RoundTrip(p: Table, rows: Exprs) returns (parsed: Exprs)
    requires Regular(p) && ProperRows(p, rows)
    requires ShallowRows(RegroupRows(p, rows)) && ClimbRows(RegroupRows(p, rows)) <= MAX_DEPTH
    ensures var evs := PrintRows(RegroupRows(p, rows)); BuildAst(p, evs) == OkRows(parsed, |evs|)
    ensures UngroupRows(parsed) == UngroupRows(rows) && (PlacedRows(p, rows) ==> parsed == rows)
  {
    parsed := RegroupRows(p, rows);
    RegroupRowsPlaced(p, rows);
    RegroupRowsSame(p, rows);
    if PlacedRows(p, rows) { RegroupNoneRows(p, rows); }
    PrintParse(p, parsed);
  }

  // --- depth of a flat tree ------------------------------------------------------------------------------

  /** The ends of the ancestors that are still open at index `i`. */
  function OpenAt(ends: seq<nat>, i: nat): (r: seq<nat>)
    ensures |r| <= |ends|
    decreases |ends|
  {
    if ends == [] || i < ends[|ends| - 1] then ends else OpenAt(ends[..|ends| - 1], i)
  }

  /** The loop over a flat tree: each node opens a range, closed ranges are dropped, and the most open at once is kept. */
  function Walk(nodes: seq<Node>, i: nat, ends: seq<nat>, deepest: nat): nat
    decreases |nodes| - i
  {
    if i >= |nodes| then deepest
    else
      var open := OpenAt(ends, i) + [i + 1 + nodes[i].below];
      Walk(nodes, i + 1, open, Max(deepest, |open|))
  }

  predicate Reach(ends: seq<nat>, k: nat) { forall j :: 0 <= j < |ends| ==> k <= ends[j] }

  lemma OpenReach(ends: seq<nat>, i: nat, k: nat)
    requires Reach(ends, k) && i < k
    ensures OpenAt(ends, i) == ends
  {}

  lemma OpenLast(ends: seq<nat>, k: nat)
    ensures OpenAt(ends + [k], k) == OpenAt(ends, k)
  {
    assert (ends + [k])[..|ends|] == ends;
  }

  predicate Lies(nodes: seq<Node>, i: nat, part: seq<Node>) { i + |part| <= |nodes| && nodes[i..i + |part|] == part }

  lemma LiesSplit(nodes: seq<Node>, i: nat, a: seq<Node>, b: seq<Node>)
    requires Lies(nodes, i, a + b)
    ensures Lies(nodes, i, a) && Lies(nodes, i + |a|, b)
  {
    var all := nodes[i..i + |a + b|];
    assert nodes[i..i + |a|] == all[..|a|] == a;
    assert nodes[i + |a|..i + |a| + |b|] == all[|a|..] == b;
  }

  lemma FlatIs(e: Expr) returns (top: Node)
    ensures Flat(e) == [top] + Below(e) && top.below == |Below(e)|
  {
    top := Flat(e)[0];
    match e
    case Binary(_, l, r) => assert Flat(e) == [top] + (Flat(l) + Flat(r));
    case Call(f, a) => assert Flat(e) == [top] + (Flat(f) + Flat(a));
    case _ =>
  }

  function Below(e: Expr): seq<Node> {
    match e
    case Leaf(_) => []
    case Unary(_, x, _) => Flat(x)
    case Binary(_, l, r) => Flat(l) + Flat(r)
    case Call(f, a) => Flat(f) + Flat(a)
    case Group(_, _, rows) => FlatRows(rows)
  }

  /** Walking over a subtree leaves the open ranges around it as they were. */
  lemma {:induction false} WalkTree(nodes: seq<Node>, i: nat, e: Expr, ends: seq<nat>, deepest: nat) returns (ends': seq<nat>)
    requires Lies(nodes, i, Flat(e)) && Reach(OpenAt(ends, i), i + |Flat(e)|)
    ensures var k, open := i + |Flat(e)|, OpenAt(ends, i);
      Walk(nodes, i, ends, deepest) == Walk(nodes, k, ends', Max(deepest, |open| + Depth(e))) && OpenAt(ends', k) == OpenAt(open, k)
    decreases e, 1
  {
    hide Flat, FlatRows, Walk, Reach, Lies, OpenAt;
    var base, k := OpenAt(ends, i), i + |Flat(e)|;
    var top := FlatIs(e);
    LiesSplit(nodes, i, [top], Below(e));
    var open := base + [k];
    WalkStep(nodes, i, ends, deepest, top, k);
    ReachMore(base, k);
    OpenLast(base, k);
    var d := Max(deepest, |open|);
    match e
    case Leaf(_) => ends' := open;
    case Unary(_, x, _) =>
      NonEmpty(x);
      OpenReach(open, i + 1, k);
      ends' := WalkTree(nodes, i + 1, x, open, d);
    case Binary(_, l, r) => ends' := WalkTwo(nodes, i + 1, e, l, r, open, d, k);
    case Call(f, a) => ends' := WalkTwo(nodes, i + 1, e, f, a, open, d, k);
    case Group(_, _, rows) => ends' := WalkRows(nodes, i + 1, rows, open, d, k);
  }

  lemma WalkStep(nodes: seq<Node>, i: nat, ends: seq<nat>, deepest: nat, top: Node, k: nat)
    requires Lies(nodes, i, [top]) && k == i + 1 + top.below
    ensures var open := OpenAt(ends, i) + [k]; Walk(nodes, i, ends, deepest) == Walk(nodes, i + 1, open, Max(deepest, |open|))
  {
    assert nodes[i] == nodes[i..i + 1][0];
  }

  lemma ReachMore(base: seq<nat>, k: nat)
    requires Reach(base, k)
    ensures Reach(base + [k], k)
  {}

  lemma ReachLess(base: seq<nat>, k: nat, c: nat)
    requires Reach(base, k) && c <= k
    ensures Reach(base, c)
  {}

  lemma NonEmpty(e: Expr)
    ensures |Flat(e)| > 0 && Depth(e) > 0
  {}

  lemma {:induction false} WalkTwo(nodes: seq<Node>, i: nat, e: Expr, a: Expr, b: Expr, open: seq<nat>, deepest: nat, k: nat) returns (ends': seq<nat>)
    requires a < e && b < e && Lies(nodes, i, Flat(a) + Flat(b)) && Reach(open, k) && k == i + |Flat(a)| + |Flat(b)|
    ensures Walk(nodes, i, open, deepest) == Walk(nodes, k, ends', Max(deepest, |open| + Max(Depth(a), Depth(b)))) && OpenAt(ends', k) == OpenAt(open, k)
    decreases e, 0
  {
    hide Flat, Walk, Reach, Lies, OpenAt, Depth;
    var c := i + |Flat(a)|;
    LiesSplit(nodes, i, Flat(a), Flat(b));
    NonEmpty(a);
    NonEmpty(b);
    OpenReach(open, i, k);
    OpenReach(open, c, k);
    ReachLess(open, k, c);
    var mid := WalkTree(nodes, i, a, open, deepest);
    ends' := WalkTree(nodes, c, b, mid, Max(deepest, |open| + Depth(a)));
  }

  lemma {:induction false} WalkRows(nodes: seq<Node>, i: nat, rows: Exprs, open: seq<nat>, deepest: nat, k: nat) returns (ends': seq<nat>)
    requires Lies(nodes, i, FlatRows(rows)) && Reach(open, k) && k == i + |FlatRows(rows)| && deepest >= |open|
    ensures Walk(nodes, i, open, deepest) == Walk(nodes, k, ends', Max(deepest, |open| + DepthRows(rows))) && OpenAt(ends', k) == OpenAt(open, k)
    decreases rows
  {
    hide Flat, Walk, Reach, Lies, OpenAt, Depth;
    if rows.NoRows? {
      ends' := open;
    } else {
      var c := i + |Flat(rows.first)|;
      LiesSplit(nodes, i, Flat(rows.first), FlatRows(rows.rest));
      NonEmpty(rows.first);
      OpenReach(open, i, k);
      ReachLess(open, k, c);
      var mid := WalkTree(nodes, i, rows.first, open, deepest);
      if rows.rest.NoRows? {
        ends' := mid;
      } else {
        RowsNonEmpty(rows.rest);
        OpenReach(open, c, k);
        ends' := WalkRowsFrom(nodes, c, rows.rest, mid, open, Max(deepest, |open| + Depth(rows.first)), k);
      }
    }
  }

  lemma RowsNonEmpty(rows: Exprs)
    requires rows.Rows?
    ensures |FlatRows(rows)| > 0
  {
    NonEmpty(rows.first);
  }

  /** The same with closed ranges still on the stack. */
  lemma {:induction false} WalkRowsFrom(nodes: seq<Node>, i: nat, rows: Exprs, ends: seq<nat>, open: seq<nat>, deepest: nat, k: nat) returns (ends': seq<nat>)
    requires rows.Rows? && Lies(nodes, i, FlatRows(rows)) && Reach(open, k) && k == i + |FlatRows(rows)| && deepest >= |open| && OpenAt(ends, i) == open
    ensures Walk(nodes, i, ends, deepest) == Walk(nodes, k, ends', Max(deepest, |open| + DepthRows(rows))) && OpenAt(ends', k) == OpenAt(open, k)
    decreases rows
  {
    hide Flat, Walk, Reach, Lies, OpenAt, Depth;
    var c := i + |Flat(rows.first)|;
    LiesSplit(nodes, i, Flat(rows.first), FlatRows(rows.rest));
    ReachLess(open, k, c);
    var mid := WalkTree(nodes, i, rows.first, ends, deepest);
    if rows.rest.NoRows? {
      ends' := mid;
    } else {
      RowsNonEmpty(rows.rest);
      OpenReach(open, c, k);
      ends' := WalkRowsFrom(nodes, c, rows.rest, mid, open, Max(deepest, |open| + Depth(rows.first)), k);
    }
  }

  /** The loop over a whole flat tree finds its depth. */
  lemma WalkIsDepth(e: Expr)
    ensures Walk(Flat(e), 0, [], 0) == Depth(e)
  {
    assert Flat(e)[0..|Flat(e)|] == Flat(e);
    var ends := WalkTree(Flat(e), 0, e, [], 0);
  }

  // --- the parser as it runs --------------------------------------------------------------------------------

  datatype Built = Built(nodes: seq<Node>) | Rejected(error: SyntaxError)

  /** The flat tree of a result, or its error. */
  function Flattened(r: Parsed): Built { if r.Ok? then Built(Flat(r.expr)) else Rejected(r.error) }

  function Joined(kids: seq<seq<Node>>): seq<Node> { if kids == [] then [] else Joined(kids[..|kids| - 1]) + kids[|kids| - 1] }

  /** A parent over subtrees that are already built. */
  method Wrap(ty: NodeType, tok: Token, kids: seq<seq<Node>>) returns (out: seq<Node>)
    ensures out == [Node(ty, tok, |Joined(kids)|)] + Joined(kids)
  {
    var footprint, k := 0, 0;
    while k < |kids|
      invariant k <= |kids| && footprint == |Joined(kids[..k])|
    {
      assert kids[..k + 1][..k] == kids[..k];
      footprint, k := footprint + |kids[k]|, k + 1;
    }
    assert kids[..k] == kids;
    out := [Node(ty, tok, footprint)];
    ghost var top := out;
    k := 0;
    while k < |kids|
      invariant k <= |kids| && out == top + Joined(kids[..k])
    {
      assert kids[..k + 1][..k] == kids[..k];
      assert top + (Joined(kids[..k]) + kids[k]) == top + Joined(kids[..k]) + kids[k];
      out, k := out + kids[k], k + 1;
    }
    assert kids[..k] == kids;
  }

  lemma JoinedOne(a: seq<Node>)
    ensures Joined([a]) == a
  {
    assert [a][..0] == [];
  }

  lemma JoinedTwo(a: seq<Node>, b: seq<Node>)
    ensures Joined([a, b]) == a + b
  {
    assert [a, b][..1] == [a];
    JoinedOne(a);
  }

  /** The depth of a flat prefix tree, from the ends of the ranges that are open. */
  method TreeDepth(nodes: seq<Node>) returns (deepest: nat)
    ensures deepest == Walk(nodes, 0, [], 0)
  {
    var ends: seq<nat>, i := [], 0;
    deepest := 0;
    while i < |nodes|
      invariant i <= |nodes| && Walk(nodes, i, ends, deepest) == Walk(nodes, 0, [], 0)
    {
      ghost var before := ends;
      while ends != [] && i >= ends[|ends| - 1]
        invariant OpenAt(ends, i) == OpenAt(before, i)
        decreases |ends|
      {
        ends := ends[..|ends| - 1];
      }
      ends := ends + [i + 1 + nodes[i].below];
      deepest, i := Max(deepest, |ends|), i + 1;
    }
  }

  class Cursor {
    const p: Table
    const evs: seq<Event>
    var i: nat
    var depth: nat

    constructor (p: Table, evs: seq<Event>)
      ensures this.p == p && this.evs == evs && i == 0 && depth == 0
    {
      this.p, this.evs, i, depth := p, evs, 0, 0;
    }

    /** The method read what the function says, and went where it says. */
    ghost predicate Read(r: Built, said: Parsed, before: nat)
      reads this
    {
      r == Flattened(said) && depth == before && (said.Ok? ==> i == said.next)
    }

    method Primary() returns (r: Built)
      modifies this
      ensures Read(r, ParsePrimary(p, evs, old(i), old(depth)), old(depth))
      decreases Left(evs, i), 1
    {
      var ev := Peek(evs, i);
      if ev.kind.Begin? {
        r := ReadBracket();
        return;
      }
      if ev.tok.isOp && ev.tok.text in ["=", "?="] { return Rejected(ExpectedName); }
      if p.tooLarge(ev.tok.text) { return Rejected(OutOfRange); }
      i := i + 1;
      r := Built([Node(WordNode, ev.tok, 0)]);
    }

    /** The rows of a bracket become the children of one node. */
    method ReadBracket() returns (r: Built)
      requires Peek(evs, i).kind.Begin?
      modifies this
      ensures Read(r, ParseBracket(p, evs, old(i), old(depth)), old(depth))
      decreases Left(evs, i), 0
    {
      hide ParseRows;
      ghost var at, start := i, depth;
      var open := Peek(evs, i);
      i := i + 1;
      var kids, error := ReadRows();
      if error.Rejected? { return error; }
      if Peek(evs, i).kind.End? { i := i + 1; }
      var out := Wrap(BlockNode(open.kind.bracket), open.tok, kids);
      r := Built(out);
    }

    /** Row after row, as long as one begins. */
    method ReadRows() returns (kids: seq<seq<Node>>, error: Built)
      modifies this
      ensures depth == old(depth)
      ensures match ParseRows(p, evs, old(i), old(depth))
        case BadRows(err) => error == Rejected(err)
        case OkRows(rows, j) => error.Built? && Joined(kids) == FlatRows(rows) && i == j
      decreases Left(evs, i), 7
    {
      hide ParseRow, Flat, FlatRows;
      ghost var all := ParseRows(p, evs, i, depth);
      kids, error := [], Built([]);
      ghost var done: seq<Node> := [];
      while Peek(evs, i).kind.RowBegin?
        invariant depth == old(depth) && error == Built([]) && old(i) <= i && Joined(kids) == done
        invariant var more := ParseRows(p, evs, i, depth);
          if more.BadRows? then all == more else all.OkRows? && all.next == more.next && FlatRows(all.rows) == done + FlatRows(more.rows)
        decreases Left(evs, i)
      {
        RowsUnfold(p, evs, i, depth);
        ghost var said := ParseRow(p, evs, i + 1, depth);
        i := i + 1;
        var row := ReadRow();
        if row.Rejected? { return kids, row; }
        ghost var more := ParseRows(p, evs, i, depth);
        if more.OkRows? { assert done + (row.nodes + FlatRows(more.rows)) == done + row.nodes + FlatRows(more.rows); }
        assert (kids + [row.nodes])[..|kids|] == kids;
        kids, done := kids + [row.nodes], done + row.nodes;
      }
      RowsUnfold(p, evs, i, depth);
      assert done + [] == done;
    }

    /** One expression, and nothing behind it. */
    method ReadRow() returns (r: Built)
      modifies this
      ensures Read(r, ParseRow(p, evs, old(i), old(depth)), old(depth))
      decreases Left(evs, i), 6
    {
      hide ParseExpr;
      ghost var said := ParseExpr(p, evs, i, depth, 0);
      r := ReadExpr(0);
      if r.Rejected? { return; }
      WalkIsDepth(said.expr);
      var deep := TreeDepth(r.nodes);
      if deep > MAX_DEPTH { return Rejected(TooDeep); }
      if !AtRowEnd(evs, i) { return Rejected(Unexpected); }
      if Peek(evs, i).kind.RowEnd? { i := i + 1; }
    }

    method ReadPostfix() returns (r: Built)
      modifies this
      ensures Read(r, ParsePostfix(p, evs, old(i), old(depth)), old(depth))
      decreases Left(evs, i), 2
    {
      hide ParsePrimary, PostfixLoop, Flat;
      ghost var all := ParsePostfix(p, evs, i, depth);
      ghost var said := ParsePrimary(p, evs, i, depth);
      PostfixUnfold(p, evs, i, depth);
      r := Primary();
      if r.Rejected? { return; }
      ghost var v := said.expr;
      while i < |evs|
        invariant depth == old(depth) && old(i) < i && r == Built(Flat(v)) && PostfixLoop(p, evs, i, depth, v) == all
        decreases |evs| - i
      {
        var ev := Peek(evs, i);
        LoopUnfold(p, evs, i, depth, v);
        if ev.tok.isOp && p.postfix(ev.tok.text) {
          i := i + 1;
          JoinedOne(r.nodes);
          var out := Wrap(PairNode, ev.tok, [r.nodes]);
          FlatUnary(ev.tok, v, true);
          v := Unary(ev.tok, v, true);
          r := Built(out);
        } else if ev.kind.Begin? {
          ghost var args := ParseBracket(p, evs, i, depth);
          var more := ReadBracket();
          if more.Rejected? { return more; }
          JoinedTwo(r.nodes, more.nodes);
          var out := Wrap(PairNode, NO_TOKEN, [r.nodes, more.nodes]);
          FlatCall(v, args.expr);
          v := Call(v, args.expr);
          r := Built(out);
        } else {
          return;
        }
      }
      LoopUnfold(p, evs, i, depth, v);
    }

    method ReadPrefix() returns (r: Built)
      modifies this
      ensures Read(r, ParsePrefix(p, evs, old(i), old(depth)), old(depth))
      decreases Left(evs, i), 3
    {
      hide ParsePostfix, Flat;
      if depth + 1 > MAX_DEPTH { return Rejected(TooDeep); }
      depth := depth + 1;
      var tok := Peek(evs, i).tok;
      if i < |evs| && tok.isOp && p.prefix(tok.text) {
        i := i + 1;
        if AtRowEnd(evs, i) {
          r := Rejected(MissingOperand);
        } else {
          ghost var said := ParsePrefix(p, evs, i, depth);
          r := ReadPrefix();
          if r.Built? {
            JoinedOne(r.nodes);
            var out := Wrap(PairNode, tok, [r.nodes]);
            FlatUnary(tok, said.expr, false);
            r := Built(out);
          }
        }
      } else {
        r := ReadPostfix();
      }
      depth := depth - 1;
    }

    method ReadExpr(min: nat) returns (r: Built)
      modifies this
      ensures Read(r, ParseExpr(p, evs, old(i), old(depth), min), old(depth))
      decreases Left(evs, i), 5
    {
      hide ParsePrefix, BinaryLoop, Flat;
      if depth + 1 > MAX_DEPTH { return Rejected(TooDeep); }
      depth := depth + 1;
      ghost var lhs := ParsePrefix(p, evs, i, depth);
      r := ReadPrefix();
      if r.Built? { r := ReadOperators(min, r.nodes, lhs.expr); }
      depth := depth - 1;
    }

    /** Joins operators that bind at least as strongly as `min` to the tree read so far. */
    method ReadOperators(min: nat, lhs: seq<Node>, ghost e: Expr) returns (r: Built)
      requires lhs == Flat(e)
      modifies this
      ensures Read(r, BinaryLoop(p, evs, old(i), old(depth), min, e), old(depth))
      decreases Left(evs, i), 4
    {
      hide ParseExpr, BinaryLoop, Flat;
      ghost var all, v := BinaryLoop(p, evs, i, depth, min, e), e;
      r := Built(lhs);
      while i < |evs|
        invariant depth == old(depth) && old(i) <= i && r == Built(Flat(v)) && BinaryLoop(p, evs, i, depth, min, v) == all
        decreases |evs| - i
      {
        var tok := Peek(evs, i).tok;
        OperatorUnfold(p, evs, i, depth, min, v);
        if !tok.isOp { return; }
        var info := p.binary(tok.text);
        if info.NotInfix? || info.precedence < min { return; }
        i := i + 1;
        if AtRowEnd(evs, i) { return Rejected(MissingOperand); }
        ghost var said := ParseExpr(p, evs, i, depth, NextMin(info));
        var rhs := ReadExpr(NextMin(info));
        if rhs.Rejected? { return rhs; }
        JoinedTwo(r.nodes, rhs.nodes);
        var out := Wrap(PairNode, tok, [r.nodes, rhs.nodes]);
        FlatBinary(tok, v, said.expr);
        v := Binary(tok, v, said.expr);
        r := Built(out);
      }
      OperatorUnfold(p, evs, i, depth, min, v);
    }
  }

  lemma FlatUnary(op: Token, x: Expr, post: bool)
    ensures Flat(Unary(op, x, post)) == [Node(PairNode, op, |Flat(x)|)] + Flat(x)
  {}

  lemma FlatBinary(op: Token, l: Expr, r: Expr)
    ensures Flat(Binary(op, l, r)) == [Node(PairNode, op, |Flat(l) + Flat(r)|)] + (Flat(l) + Flat(r))
  {}

  lemma FlatCall(f: Expr, a: Expr)
    ensures Flat(Call(f, a)) == [Node(PairNode, NO_TOKEN, |Flat(f) + Flat(a)|)] + (Flat(f) + Flat(a))
  {}

  lemma RowsUnfold(p: Table, evs: seq<Event>, i: nat, depth: nat)
    ensures !Peek(evs, i).kind.RowBegin? ==> ParseRows(p, evs, i, depth) == OkRows(NoRows, i) && FlatRows(NoRows) == []
    ensures Peek(evs, i).kind.RowBegin? ==>
      var r := ParseRow(p, evs, i + 1, depth);
      if r.Bad? then ParseRows(p, evs, i, depth) == BadRows(r.error)
      else
        var more := ParseRows(p, evs, r.next, depth);
        if more.BadRows? then ParseRows(p, evs, i, depth) == more
        else ParseRows(p, evs, i, depth) == OkRows(Rows(r.expr, more.rows), more.next) && FlatRows(Rows(r.expr, more.rows)) == Flat(r.expr) + FlatRows(more.rows)
  {
    hide ParseRow, Flat;
  }

  lemma PostfixUnfold(p: Table, evs: seq<Event>, i: nat, depth: nat)
    ensures var r := ParsePrimary(p, evs, i, depth);
      ParsePostfix(p, evs, i, depth) == if r.Bad? then r else PostfixLoop(p, evs, r.next, depth, r.expr)
  {
    hide ParsePrimary, PostfixLoop;
  }

  lemma LoopUnfold(p: Table, evs: seq<Event>, i: nat, depth: nat, v: Expr)
    ensures var ev := Peek(evs, i);
      PostfixLoop(p, evs, i, depth, v) ==
      if i >= |evs| then Ok(v, i)
      else if ev.tok.isOp && p.postfix(ev.tok.text) then PostfixLoop(p, evs, i + 1, depth, Unary(ev.tok, v, true))
      else if ev.kind.Begin? then
        var r := ParseBracket(p, evs, i, depth);
        if r.Bad? then r else PostfixLoop(p, evs, r.next, depth, Call(v, r.expr))
      else Ok(v, i)
  {
    hide ParseBracket;
  }

  lemma OperatorUnfold(p: Table, evs: seq<Event>, i: nat, depth: nat, min: nat, v: Expr)
    ensures var tok := Peek(evs, i).tok;
      BinaryLoop(p, evs, i, depth, min, v) ==
      if i >= |evs| || !tok.isOp || p.binary(tok.text).NotInfix? || p.binary(tok.text).precedence < min then Ok(v, i)
      else if AtRowEnd(evs, i + 1) then Bad(MissingOperand)
      else
        var r := ParseExpr(p, evs, i + 1, depth, NextMin(p.binary(tok.text)));
        if r.Bad? then r else BinaryLoop(p, evs, r.next, depth, min, Binary(tok, v, r.expr))
  {
    hide ParseExpr;
  }

  /** Parses a whole script into one flat tree under a root without a token. */
  method BuildScript(p: Table, evs: seq<Event>) returns (r: Built)
    ensures match BuildAst(p, evs)
      case BadRows(err) => r == Rejected(err)
      case OkRows(rows, _) => r == Built(Flat(Group(Object, NO_TOKEN, rows)))
  {
    var c := new Cursor(p, evs);
    var kids, error := c.ReadRows();
    if error.Rejected? { return error; }
    var out := Wrap(BlockNode(Object), NO_TOKEN, kids);
    r := Built(out);
  }
}
