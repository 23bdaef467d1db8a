/**
  How the built-in operators group: weakest first, assignment, `or`, `and`, equality, order,
  sums, products. Everything but assignment groups to the left.
*/
module Operators {
  import opened Pratt

  /** None is 0. */
  function Level(op: string): nat {
    if op in ["=", "?="] then 1
    else if op in ["or"] then 2
    else if op in ["and"] then 3
    else if op in ["==", "!="] then 4
    else if op in ["<", ">", "<=", ">="] then 5
    else if op in ["+", "-"] then 6
    else if op in ["*", "/", "%"] then 7
    else 0
  }

  const PREFIXES := ["+", "-", "not", "++", "--"]

  /** Words are no operators that would be read as something else, and operators in front are prefixes. */
  predicate Spelled(e: Expr, tooLarge: string -> bool) {
    match e
    case Leaf(t) => !(t.isOp && (t.text in ["=", "?="] || t.text in PREFIXES)) && !tooLarge(t.text)
    case Unary(op, x, post) => op.isOp && !post && op.text in PREFIXES && Spelled(x, tooLarge)
    case Binary(op, l, r) => op.isOp && Spelled(l, tooLarge) && Spelled(r, tooLarge)
    case Call(f, a) => Spelled(f, tooLarge) && a.Group? && Spelled(a, tooLarge)
    case Group(_, t, rows) => !t.isOp && SpelledRows(rows, tooLarge)
  }

  predicate SpelledRows(rows: Exprs, tooLarge: string -> bool) {
    rows.NoRows? || (Spelled(rows.first, tooLarge) && SpelledRows(rows.rest, tooLarge))
  }

  /** An operand on the left binds no weaker than the operator, one on the right stronger; around an assignment it is the other way round. */
  predicate Grouped(e: Expr) {
    match e
    case Leaf(_) => true
    case Unary(_, x, post) => Grouped(x) && !x.Binary? && (post ==> IsBase(x))
    case Binary(op, l, r) =>
      && Level(op.text) > 0 && Grouped(l) && Grouped(r)
      && (l.Binary? ==> if Level(op.text) == 1 then Level(l.op.text) > 1 else Level(l.op.text) >= Level(op.text))
      && (r.Binary? ==> if Level(op.text) == 1 then Level(r.op.text) >= 1 else Level(r.op.text) > Level(op.text))
    case Call(f, a) => Grouped(f) && IsBase(f) && Grouped(a) && IsBase(a)
    case Group(_, _, rows) => GroupedRows(rows)
  }

  predicate GroupedRows(rows: Exprs) { rows.NoRows? || (Grouped(rows.first) && GroupedRows(rows.rest)) }

  /** Nothing that has to be in parentheses to be called. */
  predicate IsBase(e: Expr) { !e.Binary? && (e.Unary? ==> e.post) }

  lemma LevelsAre(s: string, t: string)
    ensures var f, g := BuiltinInfix(s), BuiltinInfix(t);
      && (f.Infix? <==> Level(s) > 0)
      && (f.Infix? ==> (f.right <==> Level(s) == 1) && f.precedence > 0)
      && (f.Infix? && g.Infix? ==> (f.precedence <= g.precedence <==> Level(s) <= Level(t)))
  {
    InfixIs(s);
    InfixIs(t);
  }

  /** The precedence a level is registered with. */
  function Number(level: nat): nat { if level <= 3 then level else if level <= 5 then level + 3 else level + 5 }

  lemma InfixIs(s: string)
    ensures Level(s) == 0 ==> BuiltinInfix(s) == NotInfix
    ensures Level(s) > 0 ==> BuiltinInfix(s) == Infix(Number(Level(s)), Level(s) == 1)
  {}

  lemma {:induction false} PlacedIs(tooLarge: string -> bool, e: Expr)
    ensures var p := Builtin(tooLarge);
      && (forall min: nat {:trigger AsOperand(min)} :: Placed(p, e, AsOperand(min)) <==> Grouped(e) && (e.Binary? ==> min <= BuiltinInfix(e.op.text).precedence))
      && (Placed(p, e, AsPrefixed) <==> Grouped(e) && !e.Binary?)
      && (Placed(p, e, AsBase) <==> Grouped(e) && IsBase(e))
  {
    hide BuiltinInfix, Level;
    match e
    case Leaf(_) =>
    case Group(_, _, rows) => PlacedRowsIs(tooLarge, rows);
    case Call(f, a) =>
      PlacedIs(tooLarge, f);
      PlacedIs(tooLarge, a);
    case Unary(_, x, _) => PlacedIs(tooLarge, x);
    case Binary(op, l, r) =>
      PlacedIs(tooLarge, l);
      PlacedIs(tooLarge, r);
      LevelsAre(op.text, op.text);
      if l.Binary? { LevelsAre(op.text, l.op.text); LevelsAre(l.op.text, op.text); }
      if r.Binary? { LevelsAre(op.text, r.op.text); LevelsAre(r.op.text, op.text); }
  }

  lemma {:induction false} PlacedRowsIs(tooLarge: string -> bool, rows: Exprs)
    ensures PlacedRows(Builtin(tooLarge), rows) <==> GroupedRows(rows)
  {
    if rows.Rows? {
      PlacedIs(tooLarge, rows.first);
      PlacedRowsIs(tooLarge, rows.rest);
      assert Placed(Builtin(tooLarge), rows.first, AsOperand(0)) <==> Grouped(rows.first);
    }
  }

  lemma {:induction false} ProperIs(tooLarge: string -> bool, e: Expr)
    requires Spelled(e, tooLarge) && Grouped(e)
    ensures Proper(Builtin(tooLarge), e)
  {
    match e
    case Leaf(_) =>
    case Group(_, _, rows) => ProperRowsIs(tooLarge, rows);
    case Call(f, a) =>
      ProperIs(tooLarge, f);
      ProperIs(tooLarge, a);
    case Unary(_, x, _) => ProperIs(tooLarge, x);
    case Binary(op, l, r) =>
      ProperIs(tooLarge, l);
      ProperIs(tooLarge, r);
      InfixIs(op.text);
  }

  lemma {:induction false} ProperRowsIs(tooLarge: string -> bool, rows: Exprs)
    requires SpelledRows(rows, tooLarge) && GroupedRows(rows)
    ensures ProperRows(Builtin(tooLarge), rows)
  {
    if rows.Rows? {
      ProperIs(tooLarge, rows.first);
      ProperRowsIs(tooLarge, rows.rest);
    }
  }

  /** With the operators every system has, a script printed without further parentheses is parsed back exactly if its operators group by level. */
  lemma BuiltinGroups(tooLarge: string -> bool, rows: Exprs)
    requires SpelledRows(rows, tooLarge) && ShallowRows(rows) && ClimbRows(rows) <= MAX_DEPTH
    ensures BuildAst(Builtin(tooLarge), PrintRows(rows)) == OkRows(rows, |PrintRows(rows)|) <==> GroupedRows(rows)
  {
    hide Level, BuiltinInfix;
    var p := Builtin(tooLarge);
    BuiltinRegular(tooLarge);
    PlacedRowsIs(tooLarge, rows);
    if GroupedRows(rows) {
      ProperRowsIs(tooLarge, rows);
      PrintParse(p, rows);
    }
    RowsPlaced(p, PrintRows(rows), 0, 0);
  }

  function RowOf(e: Expr): Exprs { Rows(e, NoRows) }

  /** `a op b op' c` groups to the left unless the second operator binds more strongly, or both assign. */
  lemma TwoOperators(tooLarge: string -> bool, a: Token, b: Token, c: Token, op: Token, op': Token)
    requires Spelled(Leaf(a), tooLarge) && Spelled(Leaf(b), tooLarge) && Spelled(Leaf(c), tooLarge)
    requires op.isOp && op'.isOp && Level(op.text) > 0 && Level(op'.text) > 0
    ensures var toLeft, toRight := Binary(op', Binary(op, Leaf(a), Leaf(b)), Leaf(c)), Binary(op, Leaf(a), Binary(op', Leaf(b), Leaf(c)));
      var script := [Event(RowBegin, NO_TOKEN), Word_(a), Word_(op), Word_(b), Word_(op'), Word_(c), Event(RowEnd, NO_TOKEN)];
      BuildAst(Builtin(tooLarge), script) ==
      OkRows(RowOf(if Level(op.text) > Level(op'.text) || (Level(op.text) == Level(op'.text) > 1) then toLeft else toRight), 7)
  {
    hide Level, Spelled, Grouped;
    var left := Level(op.text) > Level(op'.text) || (Level(op.text) == Level(op'.text) > 1);
    var l, r := Binary(op, Leaf(a), Leaf(b)), Binary(op', Leaf(b), Leaf(c));
    var e := if left then Binary(op', l, Leaf(c)) else Binary(op, Leaf(a), r);
    TwoPrinted(a, b, c, op, op');
    TwoShallow(Leaf(a), Leaf(b), Leaf(c), op, op');
    BinaryStands(op, Leaf(a), Leaf(b), tooLarge);
    BinaryStands(op', Leaf(b), Leaf(c), tooLarge);
    if left { BinaryStands(op', l, Leaf(c), tooLarge); } else { BinaryStands(op, Leaf(a), r, tooLarge); }
    assert GroupedRows(NoRows) && SpelledRows(NoRows, tooLarge);
    BuiltinGroups(tooLarge, RowOf(e));
  }

  lemma BinaryStands(op: Token, l: Expr, r: Expr, tooLarge: string -> bool)
    requires op.isOp && Spelled(l, tooLarge) && Spelled(r, tooLarge) && Level(op.text) > 0
    requires (l.Leaf? || Grouped(l)) && (l.Binary? ==> if Level(op.text) == 1 then Level(l.op.text) > 1 else Level(l.op.text) >= Level(op.text))
    requires (r.Leaf? || Grouped(r)) && (r.Binary? ==> if Level(op.text) == 1 then Level(r.op.text) >= 1 else Level(r.op.text) > Level(op.text))
    ensures Spelled(Binary(op, l, r), tooLarge) && Grouped(Binary(op, l, r))
  {
    hide Level;
  }

  lemma RowPrinted(e: Expr)
    ensures PrintRows(RowOf(e)) == [Event(RowBegin, NO_TOKEN)] + Print(e) + [Event(RowEnd, NO_TOKEN)]
  {
    hide Print;
    assert PrintRows(NoRows) == [];
  }

  lemma TwoPrinted(a: Token, b: Token, c: Token, op: Token, op': Token)
    ensures var script := [Event(RowBegin, NO_TOKEN), Word_(a), Word_(op), Word_(b), Word_(op'), Word_(c), Event(RowEnd, NO_TOKEN)];
      && PrintRows(RowOf(Binary(op', Binary(op, Leaf(a), Leaf(b)), Leaf(c)))) == script
      && PrintRows(RowOf(Binary(op, Leaf(a), Binary(op', Leaf(b), Leaf(c))))) == script
  {
    hide PrintRows;
    var l, r := Binary(op, Leaf(a), Leaf(b)), Binary(op', Leaf(b), Leaf(c));
    RowPrinted(Binary(op', l, Leaf(c)));
    RowPrinted(Binary(op, Leaf(a), r));
    var words := [Word_(a), Word_(op), Word_(b), Word_(op'), Word_(c)];
    assert Print(l) == [Word_(a), Word_(op), Word_(b)] && Print(r) == [Word_(b), Word_(op'), Word_(c)];
    assert Print(Binary(op', l, Leaf(c))) == words && Print(Binary(op, Leaf(a), r)) == words;
    assert [Event(RowBegin, NO_TOKEN)] + words + [Event(RowEnd, NO_TOKEN)] ==
      [Event(RowBegin, NO_TOKEN), Word_(a), Word_(op), Word_(b), Word_(op'), Word_(c), Event(RowEnd, NO_TOKEN)];
  }

  lemma TwoShallow(a: Expr, b: Expr, c: Expr, op: Token, op': Token)
    requires a.Leaf? && b.Leaf? && c.Leaf?
    ensures var l, r := RowOf(Binary(op', Binary(op, a, b), c)), RowOf(Binary(op, a, Binary(op', b, c)));
      ShallowRows(l) && ShallowRows(r) && ClimbRows(l) <= MAX_DEPTH && ClimbRows(r) <= MAX_DEPTH
  {
    LeafShallow(a);
    LeafShallow(b);
    LeafShallow(c);
    hide ClimbBase, ClimbPrefix;
    var l, r := Binary(op, a, b), Binary(op', b, c);
    BinaryShallow(op, a, b);
    BinaryShallow(op', b, c);
    BinaryShallow(op', l, c);
    BinaryShallow(op, a, r);
    assert DepthRows(NoRows) == 0 && ClimbRows(NoRows) == 0 && ShallowRows(NoRows);
  }

  lemma LeafShallow(a: Expr)
    requires a.Leaf?
    ensures Shallow(a) && Depth(a) <= 1 && Climb(a) <= 2 && ClimbSpine(a) <= 1
  {
    assert ClimbBase(a) == 0 && ClimbPrefix(a) == 1;
  }

  lemma BinaryShallow(op: Token, l: Expr, r: Expr)
    requires Shallow(l) && Shallow(r)
    ensures var e := Binary(op, l, r);
      && Shallow(e) && Depth(e) <= 1 + Max(Depth(l), Depth(r))
      && ClimbSpine(e) <= Max(ClimbSpine(l), Climb(r)) && Climb(e) <= 1 + Max(ClimbSpine(l), Climb(r))
  {}
}
