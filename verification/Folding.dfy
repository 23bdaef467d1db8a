/**
  Constant folding against the code it replaces: what the folder computes, what overload
  resolution picks for the same expression left unfolded, and what that code computes.
*/
module Folding {
  import opened Machine
  import opened Overloads

  // --- 64-bit integers -------------------------------------------------------------------

  const WIDTH: int := 0x1_0000_0000_0000_0000
  const LIMIT: int := 0x8000_0000_0000_0000

  predicate FitsInt64(n: int) { -LIMIT <= n < LIMIT }

  function Unsigned(n: int): nat { n % WIDTH }

  function WrapAdd(a: int, b: int): int { WrapInt(Unsigned(a) + Unsigned(b)) }
  function WrapSub(a: int, b: int): int { WrapInt(Unsigned(a) - Unsigned(b)) }
  function WrapMul(a: int, b: int): int { WrapInt(Unsigned(a) * Unsigned(b)) }

  /** The remainder of a division that truncates: it takes the sign of the dividend. */
  function Remainder(a: int, b: int): int
    requires b != 0
  {
    var m := if b < 0 then -b else b;
    if a < 0 then -((-a) % m) else a % m
  }

  ghost predicate Congruent(a: int, b: int) { exists k: int :: a == b + k * WIDTH }

  lemma UnsignedIs(n: int) returns (k: int)
    ensures Unsigned(n) == n + k * WIDTH
  {
    k := -(n / WIDTH);
  }

  /** Reading a result back as signed: the one 64-bit number equal to it modulo 2^64. */
  lemma SignedIs(n: int)
    ensures FitsInt64(WrapInt(n)) && Congruent(WrapInt(n), n)
    ensures FitsInt64(n) ==> WrapInt(n) == n
  {
    var k := n / WIDTH;
    assert n % WIDTH == n + (-k) * WIDTH;
    assert WrapInt(n) == n + (-k) * WIDTH || WrapInt(n) == n + (-k - 1) * WIDTH;
  }

  lemma CongruentTrans(a: int, b: int, c: int)
    requires Congruent(a, b) && Congruent(b, c)
    ensures Congruent(a, c)
  {
    var j: int :| a == b + j * WIDTH;
    var k: int :| b == c + k * WIDTH;
    assert a == c + (j + k) * WIDTH;
  }

  /** Sum, difference and product computed on unsigned words are the exact ones, wrapped to 64 bits. */
  lemma WrapsAround(a: int, b: int)
    ensures FitsInt64(WrapAdd(a, b)) && Congruent(WrapAdd(a, b), a + b) && (FitsInt64(a + b) ==> WrapAdd(a, b) == a + b)
    ensures FitsInt64(WrapSub(a, b)) && Congruent(WrapSub(a, b), a - b) && (FitsInt64(a - b) ==> WrapSub(a, b) == a - b)
    ensures FitsInt64(WrapMul(a, b)) && Congruent(WrapMul(a, b), a * b) && (FitsInt64(a * b) ==> WrapMul(a, b) == a * b)
  {
    var j := UnsignedIs(a);
    var k := UnsignedIs(b);
    Wraps(Unsigned(a) + Unsigned(b), a + b, j + k);
    Wraps(Unsigned(a) - Unsigned(b), a - b, j - k);
    var u := Unsigned(a) * Unsigned(b);
    Expand(a, b, j, k, WIDTH);
    Wraps(u, a * b, a * k + j * b + j * k * WIDTH);
  }

  lemma Expand(a: int, b: int, j: int, k: int, m: int)
    ensures (a + j * m) * (b + k * m) == a * b + (a * k + j * b + j * k * m) * m
  {
    assert (a + j * m) * (b + k * m) == a * (b + k * m) + (j * m) * (b + k * m);
    assert a * (b + k * m) == a * b + (a * k) * m;
    assert (j * m) * (b + k * m) == (j * b) * m + (j * k * m) * m;
  }

  lemma Wraps(u: int, exact: int, k: int)
    requires u == exact + k * WIDTH
    ensures FitsInt64(WrapInt(u)) && Congruent(WrapInt(u), exact)
    ensures FitsInt64(exact) ==> WrapInt(u) == exact
  {
    SignedIs(u);
    assert Congruent(u, exact);
    CongruentTrans(WrapInt(u), u, exact);
    var j: int :| WrapInt(u) == exact + j * WIDTH;
  }

  /** The remainder belongs to a truncating division, and by -1 it is 0. */
  lemma RemainderIs(a: int, b: int)
    requires b != 0
    ensures exists q: int :: a == q * b + Remainder(a, b)
    ensures -(if b < 0 then -b else b) < Remainder(a, b) < (if b < 0 then -b else b)
    ensures if a < 0 then Remainder(a, b) <= 0 else Remainder(a, b) >= 0
    ensures b == -1 ==> Remainder(a, b) == 0
  {
    var m := if b < 0 then -b else b;
    var q := if a < 0 then -((-a) / m) else a / m;
    assert a == q * m + Remainder(a, b);
    var q' := if b < 0 then -q else q;
    assert q' * b == q * m;
  }

  // --- floating point: nothing is assumed of it ---------------------------------------------

  datatype Floats = Floats(
    add: (real, real) -> real,
    sub: (real, real) -> real,
    mul: (real, real) -> real,
    div: (real, real) -> real,
    rem: (real, real) -> real,
    plus: real -> real,
    minus: real -> real,
    more: (real, real) -> bool,
    less: (real, real) -> bool,
    moreEq: (real, real) -> bool,
    lessEq: (real, real) -> bool,
    near: (real, real) -> bool,
    ofInt: int -> real,
    ofBool: bool -> real,
    toBool: real -> bool,
    read: nat -> Option<Value>,
    call: (nat, seq<Value>) -> Option<Value>)

  // --- expressions ----------------------------------------------------------------------------

  datatype Name =
    | AddAll | MulAll | AndAll | OrAll | NandAll | NorAll
    | UnaryPlus | UnaryMinus | NotOf
    | Plus | Minus | Times | Slash | Percent
    | More | Less | MoreEq | LessEq | Equals | Differs
    | BothOf | EitherOf
    | Named(id: nat)

  datatype Tree = Literal(value: Value) | Leaf(id: nat, ty: Ty) | Apply(name: Name, args: Trees)
  datatype Trees = NoTrees | Trees(first: Tree, rest: Trees)

  predicate Scalars(t: Tree) {
    match t
    case Literal(v) => v.Bool? || v.Float? || (v.Int? && FitsInt64(v.i))
    case Leaf(_, _) => true
    case Apply(_, args) => AllScalars(args)
  }

  predicate AllScalars(ts: Trees) { ts.NoTrees? || (Scalars(ts.first) && AllScalars(ts.rest)) }

  // --- the folder -------------------------------------------------------------------------------

  function AsReal(fl: Floats, v: Value): real { if v.Int? then fl.ofInt(v.i) else if v.Float? then v.r else 0.0 }

  predicate AllOf(vs: seq<Value>, ty: Ty) { forall i :: 0 <= i < |vs| ==> TypeOf(vs[i]) == ty }
  predicate AllNumeric(vs: seq<Value>) { forall i :: 0 <= i < |vs| ==> vs[i].Int? || vs[i].Float? }

  function FoldInts(product: bool, acc: int, vs: seq<Value>): int
    requires AllOf(vs, TInt)
    decreases |vs|
  {
    if vs == [] then acc else FoldInts(product, if product then WrapMul(acc, vs[0].i) else WrapAdd(acc, vs[0].i), vs[1..])
  }

  function FoldReals(fl: Floats, product: bool, acc: real, vs: seq<Value>): real
    decreases |vs|
  {
    if vs == [] then acc
    else FoldReals(fl, product, if product then fl.mul(acc, AsReal(fl, vs[0])) else fl.add(acc, AsReal(fl, vs[0])), vs[1..])
  }

  function FoldBools(any: bool, acc: bool, vs: seq<Value>): bool
    requires AllOf(vs, TBool)
    decreases |vs|
  {
    if vs == [] then acc else FoldBools(any, if any then acc || vs[0].b else acc && vs[0].b, vs[1..])
  }

  /** An operator over two integers; `/` has no integer form. */
  function FoldIntPair(name: Name, l: int, r: int): Option<Value> {
    match name
    case Plus => Some(Int(WrapAdd(l, r)))
    case Minus => Some(Int(WrapSub(l, r)))
    case Times => Some(Int(WrapMul(l, r)))
    case Percent => if r == 0 then None else Some(Int(if r == -1 then 0 else Remainder(l, r)))
    case More => Some(Bool(l > r))
    case Less => Some(Bool(l < r))
    case MoreEq => Some(Bool(l >= r))
    case LessEq => Some(Bool(l <= r))
    case Equals => Some(Bool(l == r))
    case Differs => Some(Bool(l != r))
    case _ => None
  }

  function FoldRealPair(fl: Floats, name: Name, l: real, r: real): Option<Value> {
    match name
    case Plus => Some(Float(fl.add(l, r)))
    case Minus => Some(Float(fl.sub(l, r)))
    case Times => Some(Float(fl.mul(l, r)))
    case Slash => Some(Float(fl.div(l, r)))
    case Percent => Some(Float(fl.rem(l, r)))
    case More => Some(Bool(fl.more(l, r)))
    case Less => Some(Bool(fl.less(l, r)))
    case MoreEq => Some(Bool(fl.moreEq(l, r)))
    case LessEq => Some(Bool(fl.lessEq(l, r)))
    case Equals => Some(Bool(fl.near(l, r)))
    case Differs => Some(Bool(!fl.near(l, r)))
    case _ => None
  }

  function FoldBoolPair(name: Name, l: bool, r: bool): Option<Value> {
    match name
    case BothOf => Some(Bool(l && r))
    case EitherOf => Some(Bool(l || r))
    case Equals => Some(Bool(l == r))
    case Differs => Some(Bool(l != r))
    case _ => None
  }

  function FoldOne(fl: Floats, name: Name, v: Value): Option<Value> {
    if v.Int? && name == UnaryPlus then Some(v)
    else if v.Int? && name == UnaryMinus then Some(Int(WrapSub(0, v.i)))
    else if v.Float? && name == UnaryPlus then Some(Float(fl.plus(v.r)))
    else if v.Float? && name == UnaryMinus then Some(Float(fl.minus(v.r)))
    else if v.Bool? && name == NotOf then Some(Bool(!v.b))
    else None
  }

  function FoldCall(fl: Floats, name: Name, vs: seq<Value>): Option<Value> {
    if vs == [] then None
    else if name.AddAll? || name.MulAll? then
      if !AllNumeric(vs) then None
      else if AllOf(vs, TInt) then Some(Int(FoldInts(name.MulAll?, vs[0].i, vs[1..])))
      else Some(Float(FoldReals(fl, name.MulAll?, AsReal(fl, vs[0]), vs[1..])))
    else if name.AndAll? || name.NandAll? || name.OrAll? || name.NorAll? then
      if !AllOf(vs, TBool) then None
      else Some(Bool(FoldBools(name.OrAll? || name.NorAll?, vs[0].b, vs[1..]) != (name.NandAll? || name.NorAll?)))
    else if |vs| == 1 then FoldOne(fl, name, vs[0])
    else if |vs| != 2 then None
    else if AllOf(vs, TInt) && name != Slash then FoldIntPair(name, vs[0].i, vs[1].i)
    else if AllNumeric(vs) then FoldRealPair(fl, name, AsReal(fl, vs[0]), AsReal(fl, vs[1]))
    else if AllOf(vs, TBool) then FoldBoolPair(name, vs[0].b, vs[1].b)
    else None
  }

  function Fold(sys: Sys, fl: Floats, t: Tree): Option<Value> {
    match t
    case Literal(v) => Some(v)
    case Leaf(_, _) => None
    case Apply(name, args) =>
      if sys.extra(name) != [] || name.Named? then None
      else match FoldAll(sys, fl, args)
        case None => None
        case Some(vs) => FoldCall(fl, name, vs)
  }

  function FoldAll(sys: Sys, fl: Floats, ts: Trees): Option<seq<Value>> {
    if ts.NoTrees? then Some([])
    else
      var v, vs := Fold(sys, fl, ts.first), FoldAll(sys, fl, ts.rest);
      if v.Some? && vs.Some? then Some([v.value] + vs.value) else None
  }

  // --- the code of the unfolded expression ---------------------------------------------------------

  /** The registered operations. */
  datatype Operation =
    | IntAdd | IntSub | IntMul | IntRem | IntMore | IntLess | IntMoreEq | IntLessEq
    | FloatAdd | FloatSub | FloatMul | FloatDiv | FloatRem | FloatMore | FloatLess | FloatMoreEq | FloatLessEq
    | BoolAnd | BoolOr
    | IntPos | IntNeg | FloatPos | FloatNeg | BoolNot
    | Foreign(id: nat)

  datatype Code =
    | Constant(value: Value)
    | ReadLeaf(id: nat)
    | Convert(to_: Ty, code: Code)
    | Chained(op: Operation, parts: Codes)
    | Called(op: Operation, parts: Codes)
    | ShortCircuit(any: bool, negated: bool, parts: Codes)
    | Compared(negated: bool, left: Code, right: Code)
  datatype Codes = NoCodes | Codes(first: Code, rest: Codes)

  function Operate(fl: Floats, op: Operation, vs: seq<Value>): Option<Value> {
    if op.Foreign? then fl.call(op.id, vs)
    else if |vs| == 1 then OperateOne(fl, op, vs[0])
    else if |vs| == 2 then OperateTwo(fl, op, vs[0], vs[1])
    else None
  }

  function OperateOne(fl: Floats, op: Operation, a: Value): Option<Value> {
    match op
    case IntPos => if a.Int? then Some(a) else None
    case IntNeg => if a.Int? then Some(Int(WrapInt(0 - Unsigned(a.i)))) else None
    case FloatPos => if a.Float? then Some(Float(fl.plus(a.r))) else None
    case FloatNeg => if a.Float? then Some(Float(fl.minus(a.r))) else None
    case BoolNot => if a.Bool? then Some(Bool(!a.b)) else None
    case _ => None
  }

  function OperateTwo(fl: Floats, op: Operation, a: Value, b: Value): Option<Value> {
    if a.Int? && b.Int? then OperateInts(op, a.i, b.i)
    else if a.Float? && b.Float? then OperateReals(fl, op, a.r, b.r)
    else if a.Bool? && b.Bool? && op.BoolAnd? then Some(Bool(a.b && b.b))
    else if a.Bool? && b.Bool? && op.BoolOr? then Some(Bool(a.b || b.b))
    else None
  }

  /** The integer operations; a remainder by zero raises. */
  function OperateInts(op: Operation, a: int, b: int): Option<Value> {
    match op
    case IntAdd => Some(Int(WrapAdd(a, b)))
    case IntSub => Some(Int(WrapSub(a, b)))
    case IntMul => Some(Int(WrapMul(a, b)))
    case IntRem => if b == 0 then None else if b == -1 then Some(Int(0)) else Some(Int(Remainder(a, b)))
    case IntMore => Some(Bool(a > b))
    case IntLess => Some(Bool(a < b))
    case IntMoreEq => Some(Bool(a >= b))
    case IntLessEq => Some(Bool(a <= b))
    case _ => None
  }

  function OperateReals(fl: Floats, op: Operation, a: real, b: real): Option<Value> {
    match op
    case FloatAdd => Some(Float(fl.add(a, b)))
    case FloatSub => Some(Float(fl.sub(a, b)))
    case FloatMul => Some(Float(fl.mul(a, b)))
    case FloatDiv => Some(Float(fl.div(a, b)))
    case FloatRem => Some(Float(fl.rem(a, b)))
    case FloatMore => Some(Bool(fl.more(a, b)))
    case FloatLess => Some(Bool(fl.less(a, b)))
    case FloatMoreEq => Some(Bool(fl.moreEq(a, b)))
    case FloatLessEq => Some(Bool(fl.lessEq(a, b)))
    case _ => None
  }

  /** The equality opcodes, one for each pair of types. */
  function CompareValues(fl: Floats, a: Value, b: Value): Option<bool> {
    if a.Bool? && b.Bool? then Some(a.b == b.b)
    else if a.Int? && b.Int? then Some(a.i == b.i)
    else if (a.Int? || a.Float?) && (b.Int? || b.Float?) then Some(fl.near(AsReal(fl, a), AsReal(fl, b)))
    else None
  }

  function ConvertValue(fl: Floats, v: Value, ty: Ty): Option<Value> {
    if TypeOf(v) == ty then Some(v)
    else match ty
      case TFloat => if v.Int? then Some(Float(fl.ofInt(v.i))) else if v.Bool? then Some(Float(fl.ofBool(v.b))) else None
      case TInt => if v.Bool? then Some(Int(if v.b then 1 else 0)) else None
      case TBool => if v.Int? then Some(Bool(v.i != 0)) else if v.Float? then Some(Bool(fl.toBool(v.r))) else None
      case _ => None
  }

  /** Runs a piece of code; `None` is a script error. */
  function Eval(fl: Floats, c: Code): Option<Value>
    decreases c
  {
    match c
    case Constant(v) => Some(v)
    case ReadLeaf(id) => fl.read(id)
    case Convert(ty, x) => (match Eval(fl, x) case Some(v) => ConvertValue(fl, v, ty) case None => None)
    case Chained(op, parts) =>
      if parts.NoCodes? then None
      else (match Eval(fl, parts.first) case Some(v) => EvalChain(fl, op, v, parts.rest) case None => None)
    case Called(op, parts) => (match EvalAll(fl, parts) case Some(vs) => Operate(fl, op, vs) case None => None)
    case ShortCircuit(any, negated, parts) =>
      (match EvalUntil(fl, any, parts) case Some(b) => Some(Bool(b != negated)) case None => None)
    case Compared(negated, l, r) =>
      var a, b := Eval(fl, l), Eval(fl, r);
      if a.Some? && b.Some? then
        (match CompareValues(fl, a.value, b.value) case Some(same) => Some(Bool(same != negated)) case None => None)
      else None
  }

  function EvalChain(fl: Floats, op: Operation, acc: Value, cs: Codes): Option<Value>
    decreases cs
  {
    match cs
    case NoCodes => Some(acc)
    case Codes(c, rest) =>
      match Eval(fl, c)
      case None => None
      case Some(v) => (match Operate(fl, op, [acc, v]) case Some(u) => EvalChain(fl, op, u, rest) case None => None)
  }

  function EvalAll(fl: Floats, cs: Codes): Option<seq<Value>>
    decreases cs
  {
    match cs
    case NoCodes => Some([])
    case Codes(c, rest) =>
      var v, vs := Eval(fl, c), EvalAll(fl, rest);
      if v.Some? && vs.Some? then Some([v.value] + vs.value) else None
  }

  /** AND and OR: the rest is not evaluated once a value decides. */
  function EvalUntil(fl: Floats, any: bool, cs: Codes): Option<bool>
    decreases cs
  {
    match cs
    case NoCodes => None
    case Codes(c, rest) =>
      match Eval(fl, c)
      case Some(Bool(b)) => if b == any || rest.NoCodes? then Some(b) else EvalUntil(fl, any, rest)
      case _ => None
  }

  // --- overloads -----------------------------------------------------------------------------------

  /** How a candidate compiles its arguments. */
  datatype Form =
    | Chain(param: Ty, op: Operation, least: nat)     // `T f(T, T)`: any number of arguments, folded from the left
    | Exact(params: seq<Ty>, ret: Ty, op: Operation)
    | Logic(any: bool, negated: bool)
    | Equality(negated: bool)

  /** The overloads consumers registered beside the built-in ones. */
  datatype Sys = Sys(extra: Name -> seq<Form>)

  function Arithmetic(i: Operation, f: Operation, least: nat): seq<Form> { [Chain(TInt, i, least), Chain(TFloat, f, least)] }
  function Comparison(i: Operation, f: Operation): seq<Form> {
    [Exact([TInt, TInt], TBool, i), Exact([TFloat, TFloat], TBool, f)]
  }

  function Builtin(name: Name): seq<Form> {
    match name
    case AddAll => Arithmetic(IntAdd, FloatAdd, 1)
    case MulAll => Arithmetic(IntMul, FloatMul, 1)
    case AndAll => [Logic(false, false)]
    case OrAll => [Logic(true, false)]
    case NandAll => [Logic(false, true)]
    case NorAll => [Logic(true, true)]
    case UnaryPlus => [Exact([TInt], TInt, IntPos), Exact([TFloat], TFloat, FloatPos)]
    case UnaryMinus => [Exact([TInt], TInt, IntNeg), Exact([TFloat], TFloat, FloatNeg)]
    case NotOf => [Exact([TBool], TBool, BoolNot)]
    case Plus => Arithmetic(IntAdd, FloatAdd, 2)
    case Minus => Arithmetic(IntSub, FloatSub, 2)
    case Times => Arithmetic(IntMul, FloatMul, 2)
    case Slash => [Chain(TFloat, FloatDiv, 2)]
    case Percent => Arithmetic(IntRem, FloatRem, 2)
    case More => Comparison(IntMore, FloatMore)
    case Less => Comparison(IntLess, FloatLess)
    case MoreEq => Comparison(IntMoreEq, FloatMoreEq)
    case LessEq => Comparison(IntLessEq, FloatLessEq)
    case Equals => [Equality(false)]
    case Differs => [Equality(true)]
    case BothOf => [Chain(TBool, BoolAnd, 2)]
    case EitherOf => [Chain(TBool, BoolOr, 2)]
    case Named(_) => []
  }

  function Forms(sys: Sys, name: Name): seq<Form> { Builtin(name) + sys.extra(name) }

  function Returned(f: Form): Ty { if f.Chain? then f.param else if f.Exact? then f.ret else TBool }

  /** The conversion a result or an operand goes through on its own; its cost is 1. */
  predicate Widens(from: Ty, ty: Ty) { from == TInt && ty == TFloat }

  /** An operand is converted wherever that loses nothing but the difference between number and truth value. */
  predicate Accepts(from: Ty, ty: Ty) {
    from == ty || Widens(from, ty) || (from == TBool && (ty == TInt || ty == TFloat)) || (ty == TBool && (from == TInt || from == TFloat))
  }

  function Priority(ty: Ty): int { if ty == TInt then 10 else if ty == TFloat then 20 else 1000 }

  function RankOf(params: seq<Ty>): int { if params == [] then 0 else Priority(params[0]) + RankOf(params[1..]) }

  function Rank(f: Form): int {
    if f.Exact? then RankOf(f.params) else if f.Chain? then 2 * Priority(f.param) else 2 * Priority(TBool)
  }

  /** Compiled code, its type, and the conversion cost counted when it was done. */
  datatype Out = Out(code: Code, ty: Ty, cost: nat)
  datatype Outs = Outs(codes: Codes, cost: nat)

  /** Whether the folder's constant may stand in for the expression; an integer may become the double that is expected. */
  predicate Fits(v: Value, exp: Option<Ty>) { exp == None || exp.value == TypeOf(v) || Widens(TypeOf(v), exp.value) }

  function Emitted(fl: Floats, v: Value, exp: Option<Ty>): Value { if exp == Some(TFloat) && v.Int? then Float(fl.ofInt(v.i)) else v }

  /** Compiles an expression where `exp` is expected (`None`: any type), folding first if asked to. */
  ghost function Compile(sys: Sys, fl: Floats, folding: bool, t: Tree, exp: Option<Ty>, cost: nat): Option<Out>
    decreases t, 3
  {
    var v := Fold(sys, fl, t);
    if folding && v.Some? && Fits(v.value, exp) then
      var e := Emitted(fl, v.value, exp);
      Some(Out(Constant(e), TypeOf(e), if TypeOf(e) != TypeOf(v.value) then cost + 1 else cost))
    else match t
      case Literal(v) => Some(Out(Constant(v), TypeOf(v), cost))
      case Leaf(id, ty) => Some(Out(ReadLeaf(id), ty, cost))
      case Apply(name, args) => Resolve(sys, fl, folding, Forms(sys, name), args, exp)
  }

  /** The candidate nothing else beats or equals; its own cost replaces what was counted before. */
  ghost function Resolve(sys: Sys, fl: Floats, folding: bool, forms: seq<Form>, args: Trees, exp: Option<Ty>): Option<Out>
    decreases args, 6
  {
    var outs := Outcomes(sys, fl, folding, forms, args, exp);
    if i: nat :| Winner(Judged(forms, outs, exp), i) then outs[i] else None
  }

  ghost function Outcomes(sys: Sys, fl: Floats, folding: bool, forms: seq<Form>, args: Trees, exp: Option<Ty>): (outs: seq<Option<Out>>)
    ensures |outs| == |forms|
    decreases args, 5
  {
    seq(|forms|, i requires 0 <= i < |forms| => Attempt(sys, fl, folding, forms[i], args, exp))
  }

  /** What overload choice sees of a candidate: arguments count double. */
  function Judge(f: Form, out: Option<Out>, exp: Option<Ty>): Option<Candidate> {
    match out
    case None => None
    case Some(o) =>
      var back := if exp.Some? && exp.value != Returned(f) && Widens(Returned(f), exp.value) && !f.Logic? then 1 else 0;
      Some(Candidate(2 * o.cost + back, exp == Some(Returned(f)), Rank(f)))
  }

  function Judged(forms: seq<Form>, outs: seq<Option<Out>>, exp: Option<Ty>): seq<Option<Candidate>>
    requires |forms| == |outs|
  {
    seq(|forms|, i requires 0 <= i < |forms| => Judge(forms[i], outs[i], exp))
  }

  /** One candidate; it is refused for its result before its arguments are looked at. */
  ghost function Attempt(sys: Sys, fl: Floats, folding: bool, f: Form, args: Trees, exp: Option<Ty>): Option<Out>
    decreases args, 4
  {
    if exp.Some? && !f.Logic? && Returned(f) != exp.value && !Widens(Returned(f), exp.value) then None
    else match f
      case Chain(param, op, least) =>
        (match Uniform(sys, fl, folding, args, param, 0)
         case Some(Outs(codes, cost)) =>
           if codes.NoCodes? || Count(args) < least then None else Some(Out(Chained(op, codes), param, cost))
         case None => None)
      case Exact(params, ret, op) =>
        (match Various(sys, fl, folding, args, params, 0)
         case Some(Outs(codes, cost)) => Some(Out(Called(op, codes), ret, cost))
         case None => None)
      case Logic(any, negated) =>
        (match Truths(sys, fl, folding, args, 0)
         case Some(Outs(codes, cost)) => if codes.NoCodes? then None else Some(Out(ShortCircuit(any, negated, codes), TBool, cost))
         case None => None)
      case Equality(negated) =>
        if !(args.Trees? && args.rest.Trees? && args.rest.rest.NoTrees?) then None
        else
          var a := Compile(sys, fl, folding, args.first, None, 0);
          if a == None then None
          else
            var b := Compile(sys, fl, folding, args.rest.first, None, a.value.cost);
            if b == None then None
            else if Comparable(a.value.ty, b.value.ty) then Some(Out(Compared(negated, a.value.code, b.value.code), TBool, b.value.cost))
            else if a.value.ty == TFloat && b.value.ty == TBool then
              Some(Out(Compared(negated, a.value.code, Convert(TFloat, b.value.code)), TBool, b.value.cost + 1))
            else None
  }

  predicate Comparable(a: Ty, b: Ty) {
    (a == TBool && b == TBool) || ((a == TInt || a == TFloat) && (b == TInt || b == TFloat))
  }

  function Count(ts: Trees): nat { if ts.NoTrees? then 0 else 1 + Count(ts.rest) }

  /** An operand of the given type, converted if it has another. */
  ghost function Operand(sys: Sys, fl: Floats, folding: bool, t: Tree, ty: Ty, cost: nat): Option<Out>
    decreases t, 4
  {
    match Compile(sys, fl, folding, t, Some(ty), cost)
    case None => None
    case Some(o) =>
      if o.ty == ty then Some(o)
      else if Accepts(o.ty, ty) then Some(Out(Convert(ty, o.code), ty, o.cost + 1))
      else None
  }

  ghost function Uniform(sys: Sys, fl: Floats, folding: bool, ts: Trees, ty: Ty, cost: nat): Option<Outs>
    decreases ts, 1
  {
    match ts
    case NoTrees => Some(Outs(NoCodes, cost))
    case Trees(t, rest) =>
      match Operand(sys, fl, folding, t, ty, cost)
      case None => None
      case Some(o) =>
        match Uniform(sys, fl, folding, rest, ty, o.cost)
        case Some(Outs(codes, c)) => Some(Outs(Codes(o.code, codes), c))
        case None => None
  }

  ghost function Various(sys: Sys, fl: Floats, folding: bool, ts: Trees, tys: seq<Ty>, cost: nat): Option<Outs>
    decreases ts, 1
  {
    match ts
    case NoTrees => if tys == [] then Some(Outs(NoCodes, cost)) else None
    case Trees(t, rest) =>
      if tys == [] then None
      else match Operand(sys, fl, folding, t, tys[0], cost)
        case None => None
        case Some(o) =>
          match Various(sys, fl, folding, rest, tys[1..], o.cost)
          case Some(Outs(codes, c)) => Some(Outs(Codes(o.code, codes), c))
          case None => None
  }

  /** The children of AND and OR: a number is no truth value. */
  ghost function Truths(sys: Sys, fl: Floats, folding: bool, ts: Trees, cost: nat): Option<Outs>
    decreases ts, 1
  {
    match ts
    case NoTrees => Some(Outs(NoCodes, cost))
    case Trees(t, rest) =>
      match Compile(sys, fl, folding, t, Some(TBool), cost)
      case None => None
      case Some(o) =>
        if o.ty != TBool then None
        else match Truths(sys, fl, folding, rest, o.cost)
          case Some(Outs(codes, c)) => Some(Outs(Codes(o.code, codes), c))
          case None => None
  }

  // --- which candidate is chosen -------------------------------------------------------------------------

  lemma ResolveIs(sys: Sys, fl: Floats, folding: bool, forms: seq<Form>, args: Trees, exp: Option<Ty>, i: nat)
    requires i < |forms| && Winner(Judged(forms, Outcomes(sys, fl, folding, forms, args, exp), exp), i)
    ensures Resolve(sys, fl, folding, forms, args, exp) == Attempt(sys, fl, folding, forms[i], args, exp)
  {
    var judged := Judged(forms, Outcomes(sys, fl, folding, forms, args, exp), exp);
    forall j: nat | Winner(judged, j) ensures j == i { WinnerUnique(judged, i, j, 0); }
  }

  lemma ResolveNone(sys: Sys, fl: Floats, folding: bool, forms: seq<Form>, args: Trees, exp: Option<Ty>)
    requires forall i :: 0 <= i < |forms| ==> Attempt(sys, fl, folding, forms[i], args, exp) == None
    ensures Resolve(sys, fl, folding, forms, args, exp) == None
  {}

  /** One candidate that fits wins alone. */
  lemma ResolveOnly(sys: Sys, fl: Floats, folding: bool, forms: seq<Form>, args: Trees, exp: Option<Ty>, i: nat)
    requires i < |forms| && Attempt(sys, fl, folding, forms[i], args, exp).Some?
    requires forall j :: 0 <= j < |forms| && j != i ==> Attempt(sys, fl, folding, forms[j], args, exp) == None
    ensures Resolve(sys, fl, folding, forms, args, exp) == Attempt(sys, fl, folding, forms[i], args, exp)
  {
    ResolveIs(sys, fl, folding, forms, args, exp, i);
  }

  /** An integer candidate without conversions beats one that had to convert an operand. */
  lemma ResolveFirst(sys: Sys, fl: Floats, folding: bool, forms: seq<Form>, args: Trees, exp: Option<Ty>)
    requires |forms| == 2
    requires var a := Attempt(sys, fl, folding, forms[0], args, exp); a.Some? && a.value.cost == 0
    requires var b := Attempt(sys, fl, folding, forms[1], args, exp); b.Some? ==> b.value.cost >= 1
    ensures Resolve(sys, fl, folding, forms, args, exp) == Attempt(sys, fl, folding, forms[0], args, exp)
  {
    hide Attempt;
    ResolveIs(sys, fl, folding, forms, args, exp, 0);
  }

  // --- constant operands -------------------------------------------------------------------------------------

  /** The values as the operands of a candidate over `ty`. */
  function Widened(fl: Floats, vs: seq<Value>, ty: Ty): (r: seq<Value>)
    ensures |r| == |vs|
  {
    seq(|vs|, i requires 0 <= i < |vs| => if ty == TFloat then Float(AsReal(fl, vs[i])) else vs[i])
  }

  predicate Suits(vs: seq<Value>, ty: Ty) { if ty == TFloat then AllNumeric(vs) else (ty == TInt || ty == TBool) && AllOf(vs, ty) }

  predicate Scalar1(v: Value) { v.Bool? || v.Int? || v.Float? }

  lemma {:induction false} FoldScalar(sys: Sys, fl: Floats, t: Tree)
    requires Scalars(t) && Fold(sys, fl, t).Some?
    ensures Scalar1(Fold(sys, fl, t).value)
  {
    match t
    case Literal(_) =>
    case Apply(name, args) =>
      FoldAllScalar(sys, fl, args);
  }

  lemma {:induction false} FoldAllScalar(sys: Sys, fl: Floats, ts: Trees)
    requires AllScalars(ts) && FoldAll(sys, fl, ts).Some?
    ensures |FoldAll(sys, fl, ts).value| == Count(ts)
    ensures forall i :: 0 <= i < Count(ts) ==> Scalar1(FoldAll(sys, fl, ts).value[i])
  {
    if ts.Trees? {
      FoldScalar(sys, fl, ts.first);
      FoldAllScalar(sys, fl, ts.rest);
    }
  }

  /** The type a constant is an operand of: its own, or floating point for an integer. */
  predicate SuitsOne(v: Value, ty: Ty) { TypeOf(v) == ty || (ty == TFloat && v.Int?) }

  function WidenedOne(fl: Floats, v: Value, ty: Ty): Value { if ty == TFloat then Float(AsReal(fl, v)) else v }

  lemma {:induction false} OperandIs(sys: Sys, fl: Floats, t: Tree, ty: Ty, cost: nat) returns (o: Out)
    requires Scalars(t) && Fold(sys, fl, t).Some? && SuitsOne(Fold(sys, fl, t).value, ty)
    ensures Operand(sys, fl, false, t, ty, cost) == Some(o) && o.ty == ty
    ensures Eval(fl, o.code) == Some(WidenedOne(fl, Fold(sys, fl, t).value, ty))
    ensures ty == TInt ==> o.cost <= cost
    ensures ty == TFloat && Fold(sys, fl, t).value.Int? ==> o.cost >= 1
    decreases t, 3
  {
    hide Compile, Fold;
    FoldCompiles(sys, fl, t, Some(ty), cost);
    o := Operand(sys, fl, false, t, ty, cost).value;
  }

  lemma SuitsSplit(fl: Floats, vs: seq<Value>, ty: Ty)
    requires vs != [] && Suits(vs, ty)
    ensures SuitsOne(vs[0], ty) && Suits(vs[1..], ty)
    ensures Widened(fl, vs, ty) == [WidenedOne(fl, vs[0], ty)] + Widened(fl, vs[1..], ty)
  {}

  lemma {:induction false} UniformIs(sys: Sys, fl: Floats, ts: Trees, vs: seq<Value>, ty: Ty, cost: nat) returns (r: Outs)
    requires AllScalars(ts) && FoldAll(sys, fl, ts) == Some(vs) && Suits(vs, ty)
    ensures Uniform(sys, fl, false, ts, ty, cost) == Some(r) && EvalAll(fl, r.codes) == Some(Widened(fl, vs, ty))
    ensures Count(ts) == |vs| && (r.codes.NoCodes? <==> vs == [])
    ensures ty == TInt ==> r.cost <= cost
    ensures ty == TFloat && vs != [] && vs[|vs| - 1].Int? ==> r.cost >= 1
    decreases ts, 1
  {
    hide Compile, Fold, Operand, Eval;
    if ts.NoTrees? {
      r := Outs(NoCodes, cost);
    } else {
      hide AllOf, AllNumeric, Widened, AsReal;
      var v, rest := Fold(sys, fl, ts.first).value, FoldAll(sys, fl, ts.rest).value;
      assert vs == [v] + rest && v == vs[0] && rest == vs[1..];
      SuitsSplit(fl, vs, ty);
      var o := OperandIs(sys, fl, ts.first, ty, cost);
      var more := UniformIs(sys, fl, ts.rest, rest, ty, o.cost);
      r := Outs(Codes(o.code, more.codes), more.cost);
    }
  }

  /** A floating-point constant is never an integer operand. */
  lemma {:induction false} UniformRefused(sys: Sys, fl: Floats, ts: Trees, vs: seq<Value>, cost: nat)
    requires AllScalars(ts) && FoldAll(sys, fl, ts) == Some(vs) && AllNumeric(vs) && !AllOf(vs, TInt)
    ensures Uniform(sys, fl, false, ts, TInt, cost) == None
    decreases ts, 1
  {
    hide Compile, Fold;
    var v, rest := Fold(sys, fl, ts.first).value, FoldAll(sys, fl, ts.rest).value;
    assert vs == [v] + rest && v == vs[0] && rest == vs[1..];
    assert forall i :: 0 <= i < |rest| ==> rest[i] == vs[i + 1];
    if v.Float? {
      FoldRefused(sys, fl, ts.first, cost);
    } else {
      var o := OperandIs(sys, fl, ts.first, TInt, cost);
      assert !AllOf(rest, TInt);
      UniformRefused(sys, fl, ts.rest, rest, o.cost);
    }
  }

  lemma {:induction false} TruthsIs(sys: Sys, fl: Floats, any: bool, ts: Trees, vs: seq<Value>, cost: nat) returns (r: Outs)
    requires AllScalars(ts) && FoldAll(sys, fl, ts) == Some(vs) && AllOf(vs, TBool)
    ensures Truths(sys, fl, false, ts, cost) == Some(r) && (r.codes.NoCodes? <==> vs == [])
    ensures vs != [] ==> EvalUntil(fl, any, r.codes) == Some(FoldBools(any, vs[0].b, vs[1..]))
    decreases ts, 1
  {
    hide Compile, Fold, Eval;
    if ts.NoTrees? {
      r := Outs(NoCodes, cost);
    } else {
      var v, rest := Fold(sys, fl, ts.first).value, FoldAll(sys, fl, ts.rest).value;
      assert vs == [v] + rest && v == vs[0] && rest == vs[1..];
      assert forall i :: 0 <= i < |rest| ==> rest[i] == vs[i + 1];
      FoldCompiles(sys, fl, ts.first, Some(TBool), cost);
      var o := Compile(sys, fl, false, ts.first, Some(TBool), cost).value;
      var more := TruthsIs(sys, fl, any, ts.rest, rest, o.cost);
      r := Outs(Codes(o.code, more.codes), more.cost);
      if rest != [] { BoolsSettle(any, v.b, rest); }
    }
  }

  /** Once the accumulator decides it stays. */
  lemma {:induction false} BoolsSettle(any: bool, acc: bool, vs: seq<Value>)
    requires AllOf(vs, TBool) && vs != []
    ensures FoldBools(any, acc, vs) == if acc == any then any else FoldBools(any, vs[0].b, vs[1..])
  {
    if acc == any { BoolsStay(any, vs); }
  }

  lemma {:induction false} BoolsStay(any: bool, vs: seq<Value>)
    requires AllOf(vs, TBool)
    ensures FoldBools(any, any, vs) == any
    decreases |vs|
  {
    if vs != [] { BoolsStay(any, vs[1..]); }
  }

  // --- one candidate over constants ------------------------------------------------------------------------------

  /** The candidate takes `n` operands of the type. */
  predicate Takes(f: Form, ty: Ty, n: nat) {
    || (f.Chain? && f.param == ty && f.least <= n && 1 <= n)
    || (f.Exact? && |f.params| == n && forall i :: 0 <= i < n ==> f.params[i] == ty)
  }

  function ChainValues(fl: Floats, op: Operation, acc: Value, vs: seq<Value>): Option<Value>
    decreases |vs|
  {
    if vs == [] then Some(acc)
    else match Operate(fl, op, [acc, vs[0]])
      case Some(u) => ChainValues(fl, op, u, vs[1..])
      case None => None
  }

  /** What the candidate computes from the values of its operands. */
  function Computes(fl: Floats, f: Form, vs: seq<Value>): Option<Value> {
    if f.Chain? then (if vs == [] then None else ChainValues(fl, f.op, vs[0], vs[1..]))
    else if f.Exact? then Operate(fl, f.op, vs)
    else None
  }

  lemma {:induction false} EvalChainIs(fl: Floats, op: Operation, acc: Value, cs: Codes)
    requires EvalAll(fl, cs).Some?
    ensures EvalChain(fl, op, acc, cs) == ChainValues(fl, op, acc, EvalAll(fl, cs).value)
    decreases cs
  {
    hide Operate, Eval;
    if cs.Codes? {
      var v, vs := Eval(fl, cs.first).value, EvalAll(fl, cs.rest).value;
      assert ([v] + vs)[0] == v && ([v] + vs)[1..] == vs;
      var u := Operate(fl, op, [acc, v]);
      if u.Some? { EvalChainIs(fl, op, u.value, cs.rest); }
    }
  }

  lemma {:induction false} VariousIsUniform(sys: Sys, fl: Floats, ts: Trees, tys: seq<Ty>, ty: Ty, cost: nat)
    requires Count(ts) == |tys| && forall i :: 0 <= i < |tys| ==> tys[i] == ty
    ensures Various(sys, fl, false, ts, tys, cost) == Uniform(sys, fl, false, ts, ty, cost)
    decreases ts
  {
    hide Operand;
    if ts.Trees? {
      var o := Operand(sys, fl, false, ts.first, ty, cost);
      if o.Some? { VariousIsUniform(sys, fl, ts.rest, tys[1..], ty, o.value.cost); }
    }
  }

  predicate Allows(f: Form, exp: Option<Ty>) { exp == None || Returned(f) == exp.value || Widens(Returned(f), exp.value) }

  lemma {:induction false} AttemptTakes(sys: Sys, fl: Floats, f: Form, args: Trees, vs: seq<Value>, ty: Ty, exp: Option<Ty>) returns (o: Out)
    requires AllScalars(args) && FoldAll(sys, fl, args) == Some(vs) && Suits(vs, ty) && Takes(f, ty, |vs|) && vs != [] && Allows(f, exp)
    ensures Attempt(sys, fl, false, f, args, exp) == Some(o) && o.ty == Returned(f)
    ensures Eval(fl, o.code) == Computes(fl, f, Widened(fl, vs, ty))
    ensures ty == TInt ==> o.cost == 0
    ensures ty == TFloat && vs[|vs| - 1].Int? ==> o.cost >= 1
    decreases args, 2
  {
    hide Compile, Fold, Operate;
    var r := UniformIs(sys, fl, args, vs, ty, 0);
    o := Attempted(sys, fl, f, args, ty, exp, r);
    var ws := Widened(fl, vs, ty);
    if f.Chain? {
      assert ws == [ws[0]] + ws[1..];
      EvalAllSplit(fl, r.codes, ws);
      EvalChainIs(fl, f.op, ws[0], r.codes.rest);
    }
  }

  lemma EvalAllSplit(fl: Floats, cs: Codes, vs: seq<Value>)
    requires EvalAll(fl, cs) == Some(vs) && vs != []
    ensures cs.Codes? && Eval(fl, cs.first) == Some(vs[0]) && EvalAll(fl, cs.rest) == Some(vs[1..])
  {
    hide Eval;
    var rest := EvalAll(fl, cs.rest);
    assert rest.Some? ==> ([vs[0]] + rest.value)[1..] == rest.value;
  }

  lemma Attempted(sys: Sys, fl: Floats, f: Form, args: Trees, ty: Ty, exp: Option<Ty>, r: Outs) returns (o: Out)
    requires Uniform(sys, fl, false, args, ty, 0) == Some(r) && Takes(f, ty, Count(args)) && r.codes.Codes? && Allows(f, exp)
    ensures Attempt(sys, fl, false, f, args, exp) == Some(o) && o.ty == Returned(f) && o.cost == r.cost
    ensures o.code == if f.Chain? then Chained(f.op, r.codes) else Called(f.op, r.codes)
  {
    hide Uniform, Various;
    if f.Exact? { VariousIsUniform(sys, fl, args, f.params, ty, 0); }
    o := Attempt(sys, fl, false, f, args, exp).value;
  }

  lemma {:induction false} AttemptRefused(sys: Sys, fl: Floats, f: Form, args: Trees, vs: seq<Value>, exp: Option<Ty>)
    requires AllScalars(args) && FoldAll(sys, fl, args) == Some(vs) && AllNumeric(vs) && !AllOf(vs, TInt) && Takes(f, TInt, |vs|)
    ensures Attempt(sys, fl, false, f, args, exp) == None
    decreases args, 2
  {
    hide Compile, Fold;
    FoldAllScalar(sys, fl, args);
    UniformRefused(sys, fl, args, vs, 0);
    if f.Exact? { VariousIsUniform(sys, fl, args, f.params, TInt, 0); }
  }

  // --- the candidates of the built-in names -----------------------------------------------------------------------

  lemma {:induction false} ManyInts(fl: Floats, product: bool, acc: int, vs: seq<Value>)
    requires AllOf(vs, TInt)
    ensures ChainValues(fl, if product then IntMul else IntAdd, Int(acc), vs) == Some(Int(FoldInts(product, acc, vs)))
    decreases |vs|
  {
    if vs != [] {
      assert vs[0] == Int(vs[0].i);
      ManyInts(fl, product, if product then WrapMul(acc, vs[0].i) else WrapAdd(acc, vs[0].i), vs[1..]);
    }
  }

  lemma {:induction false} ManyReals(fl: Floats, product: bool, acc: real, vs: seq<Value>)
    ensures ChainValues(fl, if product then FloatMul else FloatAdd, Float(acc), Widened(fl, vs, TFloat)) == Some(Float(FoldReals(fl, product, acc, vs)))
    decreases |vs|
  {
    if vs != [] {
      var ws, x := Widened(fl, vs, TFloat), AsReal(fl, vs[0]);
      assert ws[1..] == Widened(fl, vs[1..], TFloat);
      ManyReals(fl, product, if product then fl.mul(acc, x) else fl.add(acc, x), vs[1..]);
    }
  }

  /** An integer and a floating-point candidate: without a floating-point operand the integer one is chosen. */
  lemma {:induction false} PairCompiles(sys: Sys, fl: Floats, i: Form, f: Form, args: Trees, vs: seq<Value>, exp: Option<Ty>) returns (o: Out)
    requires AllScalars(args) && FoldAll(sys, fl, args) == Some(vs) && AllNumeric(vs) && vs != []
    requires Takes(i, TInt, |vs|) && Takes(f, TFloat, |vs|) && Allows(if AllOf(vs, TInt) then i else f, exp)
    ensures Resolve(sys, fl, false, [i, f], args, exp) == Some(o)
    ensures var k, ty := if AllOf(vs, TInt) then i else f, if AllOf(vs, TInt) then TInt else TFloat;
      o.ty == Returned(k) && Eval(fl, o.code) == Computes(fl, k, Widened(fl, vs, ty))
    ensures AllOf(vs, TInt) ==> o.cost == 0
    decreases args, 3
  {
    hide Attempt, Resolve, Fold, Eval, Computes;
    if AllOf(vs, TInt) {
      o := AttemptTakes(sys, fl, i, args, vs, TInt, exp);
      if Allows(f, exp) { var other := AttemptTakes(sys, fl, f, args, vs, TFloat, exp); } else { AttemptBarred(sys, fl, f, args, exp); }
      ResolveFirst(sys, fl, false, [i, f], args, exp);
    } else {
      o := AttemptTakes(sys, fl, f, args, vs, TFloat, exp);
      AttemptRefused(sys, fl, i, args, vs, exp);
      ResolveOnly(sys, fl, false, [i, f], args, exp, 1);
    }
  }

  lemma AttemptBarred(sys: Sys, fl: Floats, f: Form, args: Trees, exp: Option<Ty>)
    requires !Allows(f, exp) && !f.Logic?
    ensures Attempt(sys, fl, false, f, args, exp) == None
  {}

  lemma {:induction false} OneCompiles(sys: Sys, fl: Floats, f: Form, args: Trees, vs: seq<Value>, ty: Ty, exp: Option<Ty>) returns (o: Out)
    requires AllScalars(args) && FoldAll(sys, fl, args) == Some(vs) && Suits(vs, ty) && vs != []
    requires Takes(f, ty, |vs|) && Allows(f, exp)
    ensures Resolve(sys, fl, false, [f], args, exp) == Some(o)
    ensures o.ty == Returned(f) && Eval(fl, o.code) == Computes(fl, f, Widened(fl, vs, ty))
    decreases args, 3
  {
    hide Attempt, Resolve, Fold, Eval, Computes;
    o := AttemptTakes(sys, fl, f, args, vs, ty, exp);
    ResolveOnly(sys, fl, false, [f], args, exp, 0);
  }

  lemma {:induction false} LogicCompiles(sys: Sys, fl: Floats, any: bool, negated: bool, args: Trees, vs: seq<Value>, exp: Option<Ty>) returns (o: Out)
    requires AllScalars(args) && FoldAll(sys, fl, args) == Some(vs) && AllOf(vs, TBool) && vs != []
    ensures Resolve(sys, fl, false, [Logic(any, negated)], args, exp) == Some(o)
    ensures o.ty == TBool && Eval(fl, o.code) == Some(Bool(FoldBools(any, vs[0].b, vs[1..]) != negated))
    decreases args, 3
  {
    hide Resolve, Fold, Truths, EvalUntil;
    var r := TruthsIs(sys, fl, any, args, vs, 0);
    o := Out(ShortCircuit(any, negated, r.codes), TBool, r.cost);
    ResolveOnly(sys, fl, false, [Logic(any, negated)], args, exp, 0);
  }

  lemma {:induction false} EqualityCompiles(sys: Sys, fl: Floats, negated: bool, args: Trees, vs: seq<Value>, exp: Option<Ty>) returns (o: Out)
    requires AllScalars(args) && FoldAll(sys, fl, args) == Some(vs) && |vs| == 2 && (AllNumeric(vs) || AllOf(vs, TBool))
    requires exp == None || exp.value == TBool
    ensures Resolve(sys, fl, false, [Equality(negated)], args, exp) == Some(o)
    ensures CompareValues(fl, vs[0], vs[1]).Some? && o.ty == TBool
    ensures Eval(fl, o.code) == Some(Bool(CompareValues(fl, vs[0], vs[1]).value != negated))
    decreases args, 3
  {
    hide Resolve, Fold, Compile;
    TwoOperands(sys, fl, args, vs);
    FoldCompiles(sys, fl, args.first, None, 0);
    var a := Compile(sys, fl, false, args.first, None, 0).value;
    FoldCompiles(sys, fl, args.rest.first, None, a.cost);
    var b := Compile(sys, fl, false, args.rest.first, None, a.cost).value;
    o := Out(Compared(negated, a.code, b.code), TBool, b.cost);
    ResolveOnly(sys, fl, false, [Equality(negated)], args, exp, 0);
  }

  lemma TwoOperands(sys: Sys, fl: Floats, args: Trees, vs: seq<Value>)
    requires FoldAll(sys, fl, args) == Some(vs) && |vs| == 2
    ensures args.Trees? && args.rest.Trees? && args.rest.rest.NoTrees?
    ensures Fold(sys, fl, args.first) == Some(vs[0]) && Fold(sys, fl, args.rest.first) == Some(vs[1])
  {
    hide Fold;
    assert args.Trees?;
    var rest := FoldAll(sys, fl, args.rest).value;
    assert vs == [vs[0]] + rest && |rest| == 1;
    assert args.rest.Trees?;
    var last := FoldAll(sys, fl, args.rest.rest).value;
    assert rest == [rest[0]] + last && |last| == 0;
    assert args.rest.rest.Trees? ==> |last| > 0;
  }

  // --- folded and unfolded agree ------------------------------------------------------------------------------------

  predicate Arithmetical(name: Name) {
    name.AddAll? || name.MulAll? || name.Plus? || name.Minus? || name.Times? || name.Percent?
    || name.More? || name.Less? || name.MoreEq? || name.LessEq? || name.UnaryPlus? || name.UnaryMinus?
  }

  predicate Logical(name: Name) { name.AndAll? || name.OrAll? || name.NandAll? || name.NorAll? }

  /** Which candidates a foldable call over numbers has, and that the one in question takes its operands. */
  lemma ArithmeticTakes(fl: Floats, name: Name, vs: seq<Value>)
    requires Arithmetical(name) && FoldCall(fl, name, vs).Some?
    ensures AllNumeric(vs) && vs != [] && |Builtin(name)| == 2
    ensures Takes(Builtin(name)[0], TInt, |vs|) && Takes(Builtin(name)[1], TFloat, |vs|)
    ensures Returned(if AllOf(vs, TInt) then Builtin(name)[0] else Builtin(name)[1]) == TypeOf(FoldCall(fl, name, vs).value)
    ensures FoldCall(fl, name, vs).value.Int? ==> AllOf(vs, TInt)
  {
    hide FoldInts, FoldReals, Remainder, WrapAdd, WrapSub, WrapMul;
    if |vs| == 1 { assert vs == [vs[0]]; }
    if |vs| == 2 { assert vs == [vs[0], vs[1]]; }
  }

  /** The chosen operation computes the folder's constant, and does not raise. */
  lemma ArithmeticComputes(fl: Floats, name: Name, vs: seq<Value>)
    requires Arithmetical(name) && FoldCall(fl, name, vs).Some?
    ensures AllNumeric(vs) && |Builtin(name)| == 2
    ensures var all := AllOf(vs, TInt);
      Computes(fl, if all then Builtin(name)[0] else Builtin(name)[1], Widened(fl, vs, if all then TInt else TFloat)) == FoldCall(fl, name, vs)
  {
    hide Computes, Operate, FoldCall;
    ArithmeticTakes(fl, name, vs);
    var all := AllOf(vs, TInt);
    var ws := Widened(fl, vs, if all then TInt else TFloat);
    if all { assert ws == vs; }
    if name.AddAll? || name.MulAll? {
      ManyCompute(fl, name.MulAll?, vs);
    } else if |vs| == 1 {
      assert vs == [vs[0]] && ws == [ws[0]];
      SingleComputes(fl, name, vs[0]);
    } else {
      PairSize(fl, name, vs);
      assert vs == [vs[0], vs[1]] && ws == [ws[0], ws[1]];
      PairComputes(fl, if all then Builtin(name)[0] else Builtin(name)[1], ws[0], ws[1]);
      if all { IntPairComputes(fl, name, vs[0].i, vs[1].i); } else { RealPairComputes(fl, name, AsReal(fl, vs[0]), AsReal(fl, vs[1])); }
    }
  }

  lemma PairSize(fl: Floats, name: Name, vs: seq<Value>)
    requires Arithmetical(name) && !name.AddAll? && !name.MulAll? && FoldCall(fl, name, vs).Some? && |vs| != 1
    ensures |vs| == 2 && !name.UnaryPlus? && !name.UnaryMinus?
    ensures !AllOf(vs, TInt) ==> FoldCall(fl, name, vs) == FoldRealPair(fl, name, AsReal(fl, vs[0]), AsReal(fl, vs[1]))
  {}

  lemma ManyCompute(fl: Floats, product: bool, vs: seq<Value>)
    requires AllNumeric(vs) && vs != []
    ensures var name, all := if product then MulAll else AddAll, AllOf(vs, TInt);
      Computes(fl, if all then Builtin(name)[0] else Builtin(name)[1], Widened(fl, vs, if all then TInt else TFloat)) == FoldCall(fl, name, vs)
  {
    hide ChainValues, FoldInts, FoldReals;
    var all := AllOf(vs, TInt);
    var ws := Widened(fl, vs, if all then TInt else TFloat);
    assert ws[1..] == Widened(fl, vs[1..], if all then TInt else TFloat);
    if all {
      assert ws == vs && vs[0] == Int(vs[0].i);
      ManyInts(fl, product, vs[0].i, vs[1..]);
    } else {
      ManyReals(fl, product, AsReal(fl, vs[0]), vs[1..]);
    }
  }

  lemma SingleComputes(fl: Floats, name: Name, v: Value)
    requires Arithmetical(name) && !name.AddAll? && !name.MulAll? && FoldCall(fl, name, [v]).Some?
    ensures Computes(fl, Builtin(name)[if v.Int? then 0 else 1], [if v.Int? then v else Float(AsReal(fl, v))]) == FoldCall(fl, name, [v])
  {}

  lemma IntPairComputes(fl: Floats, name: Name, l: int, r: int)
    requires Arithmetical(name) && !name.AddAll? && !name.MulAll? && FoldCall(fl, name, [Int(l), Int(r)]).Some?
    ensures var f := Builtin(name)[0]; (f.Chain? || f.Exact?) && Operate(fl, f.op, [Int(l), Int(r)]) == FoldCall(fl, name, [Int(l), Int(r)])
  {}

  lemma RealPairComputes(fl: Floats, name: Name, l: real, r: real)
    requires Arithmetical(name) && FoldRealPair(fl, name, l, r).Some?
    ensures var f := Builtin(name)[1]; (f.Chain? || f.Exact?) && Operate(fl, f.op, [Float(l), Float(r)]) == FoldRealPair(fl, name, l, r)
  {
    assert Operate(fl, Builtin(name)[1].op, [Float(l), Float(r)]) == OperateReals(fl, Builtin(name)[1].op, l, r);
  }

  lemma PairComputes(fl: Floats, f: Form, a: Value, b: Value)
    requires f.Chain? || f.Exact?
    ensures Computes(fl, f, [a, b]) == Operate(fl, f.op, [a, b])
  {
    hide Operate;
    assert [a, b][1..] == [b] && [b][1..] == [];
    var u := Operate(fl, f.op, [a, b]);
    if f.Chain? && u.Some? { assert ChainValues(fl, f.op, u.value, []) == u; }
  }

  lemma LogicFolds(fl: Floats, name: Name, vs: seq<Value>)
    requires Logical(name) && FoldCall(fl, name, vs).Some?
    ensures AllOf(vs, TBool) && vs != []
    ensures var any, negated := name.OrAll? || name.NorAll?, name.NandAll? || name.NorAll?;
      Builtin(name) == [Logic(any, negated)] && FoldCall(fl, name, vs) == Some(Bool(FoldBools(any, vs[0].b, vs[1..]) != negated))
  {
    hide FoldBools;
  }

  lemma EqualityFolds(fl: Floats, name: Name, vs: seq<Value>)
    requires (name.Equals? || name.Differs?) && FoldCall(fl, name, vs).Some?
    ensures |vs| == 2 && (AllNumeric(vs) || AllOf(vs, TBool)) && Builtin(name) == [Equality(name.Differs?)]
    ensures CompareValues(fl, vs[0], vs[1]).Some? && FoldCall(fl, name, vs) == Some(Bool(CompareValues(fl, vs[0], vs[1]).value != name.Differs?))
  {}

  /** The names with a single candidate over one type. */
  lemma OthersCompute(fl: Floats, name: Name, vs: seq<Value>)
    requires !Arithmetical(name) && !Logical(name) && !name.Equals? && !name.Differs? && !name.Named? && FoldCall(fl, name, vs).Some?
    ensures var ty := if name.Slash? then TFloat else TBool;
      && Suits(vs, ty) && vs != [] && Builtin(name) == [Builtin(name)[0]] && Takes(Builtin(name)[0], ty, |vs|) && Returned(Builtin(name)[0]) == ty
      && TypeOf(FoldCall(fl, name, vs).value) == ty
      && Computes(fl, Builtin(name)[0], Widened(fl, vs, ty)) == FoldCall(fl, name, vs)
  {
    var ws := Widened(fl, vs, if name.Slash? then TFloat else TBool);
    if name.NotOf? {
      assert vs == [vs[0]] == ws;
    } else {
      assert ws == [ws[0], ws[1]];
      PairComputes(fl, Builtin(name)[0], ws[0], ws[1]);
    }
  }

  lemma {:induction false} NodeCompiles(sys: Sys, fl: Floats, name: Name, args: Trees, vs: seq<Value>, exp: Option<Ty>) returns (o: Out)
    requires AllScalars(args) && FoldAll(sys, fl, args) == Some(vs) && FoldCall(fl, name, vs).Some? && !name.Named?
    requires Fits(FoldCall(fl, name, vs).value, exp)
    ensures Resolve(sys, fl, false, Builtin(name), args, exp) == Some(o)
    ensures var v := FoldCall(fl, name, vs).value; o.ty == TypeOf(v) && Eval(fl, o.code) == Some(v) && (v.Int? ==> o.cost == 0)
    decreases args, 4
  {
    hide Resolve, Fold, FoldAll, Eval, Computes, FoldCall, Builtin, Takes, Suits;
    if Arithmetical(name) {
      ArithmeticTakes(fl, name, vs);
      ArithmeticComputes(fl, name, vs);
      o := PairCompiles(sys, fl, Builtin(name)[0], Builtin(name)[1], args, vs, exp);
      assert Builtin(name) == [Builtin(name)[0], Builtin(name)[1]];
    } else if Logical(name) {
      LogicFolds(fl, name, vs);
      o := LogicCompiles(sys, fl, name.OrAll? || name.NorAll?, name.NandAll? || name.NorAll?, args, vs, exp);
    } else if name.Equals? || name.Differs? {
      EqualityFolds(fl, name, vs);
      o := EqualityCompiles(sys, fl, name.Differs?, args, vs, exp);
    } else {
      OthersCompute(fl, name, vs);
      o := OneCompiles(sys, fl, Builtin(name)[0], args, vs, if name.Slash? then TFloat else TBool, exp);
    }
  }

  lemma {:induction false} FoldCompiles(sys: Sys, fl: Floats, t: Tree, exp: Option<Ty>, cost: nat)
    requires Scalars(t) && Fold(sys, fl, t).Some? && Fits(Fold(sys, fl, t).value, exp)
    ensures var v, o := Fold(sys, fl, t).value, Compile(sys, fl, false, t, exp, cost);
      o.Some? && o.value.ty == TypeOf(v) && Eval(fl, o.value.code) == Some(v) && (v.Int? ==> o.value.cost <= cost)
    decreases t, 2
  {
    hide Resolve, FoldAll, FoldCall;
    match t
    case Literal(_) =>
    case Apply(name, args) =>
      var o := NodeCompiles(sys, fl, name, args, FoldAll(sys, fl, args).value, exp);
      assert Forms(sys, name) == Builtin(name);
  }

  lemma {:induction false} FoldRefused(sys: Sys, fl: Floats, t: Tree, cost: nat)
    requires Scalars(t) && Fold(sys, fl, t).Some? && Fold(sys, fl, t).value.Float?
    ensures Operand(sys, fl, false, t, TInt, cost) == None
    decreases t, 2
  {
    hide Resolve, FoldAll;
    match t
    case Literal(_) =>
    case Apply(name, args) =>
      assert Forms(sys, name) == Builtin(name);
      NodeRefused(sys, fl, name, args, FoldAll(sys, fl, args).value);
  }

  lemma {:induction false} NodeRefused(sys: Sys, fl: Floats, name: Name, args: Trees, vs: seq<Value>)
    requires AllScalars(args) && FoldAll(sys, fl, args) == Some(vs) && FoldCall(fl, name, vs).Some? && FoldCall(fl, name, vs).value.Float?
    ensures Resolve(sys, fl, false, Builtin(name), args, Some(TInt)) == None
    decreases args, 4
  {
    hide Attempt, Fold, FoldAll, Resolve;
    if Arithmetical(name) {
      ArithmeticTakes(fl, name, vs);
      AttemptRefused(sys, fl, Builtin(name)[0], args, vs, Some(TInt));
      AttemptBarred(sys, fl, Builtin(name)[1], args, Some(TInt));
    } else {
      FloatOnly(fl, name, vs);
      AttemptBarred(sys, fl, Builtin(name)[0], args, Some(TInt));
    }
    ResolveNone(sys, fl, false, Builtin(name), args, Some(TInt));
  }

  lemma FloatOnly(fl: Floats, name: Name, vs: seq<Value>)
    requires !Arithmetical(name) && FoldCall(fl, name, vs).Some? && FoldCall(fl, name, vs).value.Float?
    ensures name == Slash
  {}

  /**
    Wherever the folder's constant may stand in for an expression, the expression compiles
    too: the overload that is chosen yields a value of the constant's kind, and what its
    code computes, once converted to the expected type, is the very value the folder emits.
    In particular it raises nothing.
  */
  lemma FoldingRefines(sys: Sys, fl: Floats, t: Tree, ty: Ty, cost: nat) returns (folded: Out, unfolded: Out)
    requires Scalars(t) && Fold(sys, fl, t).Some? && Fits(Fold(sys, fl, t).value, Some(ty))
    ensures Operand(sys, fl, true, t, ty, cost) == Some(folded) && Operand(sys, fl, false, t, ty, cost) == Some(unfolded)
    ensures folded.ty == unfolded.ty == ty && Eval(fl, folded.code) == Eval(fl, unfolded.code)
    ensures folded.code == Constant(Emitted(fl, Fold(sys, fl, t).value, Some(ty)))
  {
    FoldScalar(sys, fl, t);
    unfolded := OperandIs(sys, fl, t, ty, cost);
    folded := Compile(sys, fl, true, t, Some(ty), cost).value;
  }

  /** The same where any type will do. */
  lemma FoldingRefinesAny(sys: Sys, fl: Floats, t: Tree, cost: nat) returns (o: Out)
    requires Scalars(t) && Fold(sys, fl, t).Some?
    ensures Compile(sys, fl, false, t, None, cost) == Some(o)
    ensures o.ty == TypeOf(Fold(sys, fl, t).value) && Eval(fl, o.code) == Some(Fold(sys, fl, t).value)
    ensures Compile(sys, fl, true, t, None, cost) == Some(Out(Constant(Fold(sys, fl, t).value), o.ty, cost))
  {
    FoldCompiles(sys, fl, t, None, cost);
    o := Compile(sys, fl, false, t, None, cost).value;
  }

  /** A consumer's function over one integer and one floating-point number, in either order. */
  function EitherOrder(ret: Ty): seq<Form> { [Exact([TInt, TFloat], ret, Foreign(0)), Exact([TFloat, TInt], ret, Foreign(1))] }

  /** Two operands, compiled one after the other. */
  lemma TwoVarious(sys: Sys, fl: Floats, folding: bool, a: Tree, b: Tree, ta: Ty, tb: Ty, ret: Ty, op: Operation)
    ensures var x := Operand(sys, fl, folding, a, ta, 0);
      Attempt(sys, fl, folding, Exact([ta, tb], ret, op), Trees(a, Trees(b, NoTrees)), None) ==
      if x == None then None
      else
        var y := Operand(sys, fl, folding, b, tb, x.value.cost);
        if y == None then None else Some(Out(Called(op, Codes(x.value.code, Codes(y.value.code, NoCodes))), ret, y.value.cost))
  {
    hide Operand;
    assert [ta, tb][1..] == [tb] && [tb][1..] == [];
    var x := Operand(sys, fl, folding, a, ta, 0);
    if x.Some? {
      assert Various(sys, fl, folding, Trees(b, NoTrees), [tb], x.value.cost) ==
        match Operand(sys, fl, folding, b, tb, x.value.cost)
        case None => None
        case Some(y) => Some(Outs(Codes(y.code, NoCodes), y.cost));
    }
  }

  /**
    Folding is not invisible to overload choice once a consumer overloads on mixed types: a
    call as the second operand forgets the conversion counted for the first, the constant it
    folds to does not. For an integer literal and a constant integer expression the choice
    between the two orders is ambiguous when folding, and without folding exactly when the
    expression is a literal.
  */
  lemma FoldingDecidesOverload(sys: Sys, fl: Floats, id: nat, ret: Ty, n: int, t: Tree)
    requires sys.extra(Named(id)) == EitherOrder(ret) && Scalars(t) && FitsInt64(n)
    requires Fold(sys, fl, t).Some? && Fold(sys, fl, t).value.Int?
    ensures var call := Apply(Named(id), Trees(Literal(Int(n)), Trees(t, NoTrees)));
      && Compile(sys, fl, true, call, None, 0) == None
      && (Compile(sys, fl, false, call, None, 0).Some? <==> t.Apply?)
  {
    hide Fold, Resolve, Attempt, Operand;
    var args, forms := Trees(Literal(Int(n)), Trees(t, NoTrees)), EitherOrder(ret);
    assert Forms(sys, Named(id)) == forms;
    CallNotFolded(sys, fl, id, args);
    forall folding: bool ensures Resolve(sys, fl, folding, forms, args, None).Some? <==> !folding && t.Apply? {
      var a, b := MixedCosts(sys, fl, folding, n, t, ret);
      var judged := Judged(forms, Outcomes(sys, fl, folding, forms, args, None), None);
      MixedJudged(sys, fl, folding, args, ret, a, b);
      if !folding && t.Apply? {
        assert Winner(judged, 1);
        ResolveIs(sys, fl, folding, forms, args, None, 1);
      } else {
        assert Tied(judged, 0, 1);
        ResolveTied(sys, fl, folding, forms, args, None, 0, 1);
      }
    }
  }

  lemma ResolveTied(sys: Sys, fl: Floats, folding: bool, forms: seq<Form>, args: Trees, exp: Option<Ty>, i: nat, j: nat)
    requires Tied(Judged(forms, Outcomes(sys, fl, folding, forms, args, exp), exp), i, j)
    ensures Resolve(sys, fl, folding, forms, args, exp) == None
  {
    var judged := Judged(forms, Outcomes(sys, fl, folding, forms, args, exp), exp);
    if k: nat :| Winner(judged, k) { WinnerUnique(judged, k, i, j); }
  }

  lemma MixedJudged(sys: Sys, fl: Floats, folding: bool, args: Trees, ret: Ty, a: Out, b: Out)
    requires Attempt(sys, fl, folding, EitherOrder(ret)[0], args, None) == Some(a) && Attempt(sys, fl, folding, EitherOrder(ret)[1], args, None) == Some(b)
    ensures var judged := Judged(EitherOrder(ret), Outcomes(sys, fl, folding, EitherOrder(ret), args, None), None);
      judged == [Some(Candidate(2 * a.cost, false, 30)), Some(Candidate(2 * b.cost, false, 30))]
  {
    hide Attempt;
    assert [TInt, TFloat][1..] == [TFloat] && [TFloat, TInt][1..] == [TInt] && [TFloat][1..] == [] && [TInt][1..] == [];
    assert RankOf([TInt]) == 10 && RankOf([TFloat]) == 20;
    assert RankOf([TInt, TFloat]) == 30 && RankOf([TFloat, TInt]) == 30;
  }

  lemma CallNotFolded(sys: Sys, fl: Floats, id: nat, args: Trees)
    ensures Fold(sys, fl, Apply(Named(id), args)) == None
  {}

  /** What the two orders cost. */
  lemma MixedCosts(sys: Sys, fl: Floats, folding: bool, n: int, t: Tree, ret: Ty) returns (a: Out, b: Out)
    requires Scalars(t) && FitsInt64(n) && Fold(sys, fl, t).Some? && Fold(sys, fl, t).value.Int?
    ensures var args, forms := Trees(Literal(Int(n)), Trees(t, NoTrees)), EitherOrder(ret);
      Attempt(sys, fl, folding, forms[0], args, None) == Some(a) && Attempt(sys, fl, folding, forms[1], args, None) == Some(b)
    ensures a.cost == 1 && b.cost == if !folding && t.Apply? then 0 else 1
  {
    hide Fold, Resolve, Attempt, Eval;
    var first := Literal(Int(n));
    LiteralOperand(sys, fl, folding, n, TInt, 0);
    LiteralOperand(sys, fl, folding, n, TFloat, 0);
    TwoVarious(sys, fl, folding, first, t, TInt, TFloat, ret, Foreign(0));
    TwoVarious(sys, fl, folding, first, t, TFloat, TInt, ret, Foreign(1));
    ConstantOperand(sys, fl, folding, t, TInt, 1);
    ConstantOperand(sys, fl, folding, t, TFloat, 0);
    a := Attempt(sys, fl, folding, EitherOrder(ret)[0], Trees(first, Trees(t, NoTrees)), None).value;
    b := Attempt(sys, fl, folding, EitherOrder(ret)[1], Trees(first, Trees(t, NoTrees)), None).value;
  }

  lemma LiteralOperand(sys: Sys, fl: Floats, folding: bool, n: int, ty: Ty, cost: nat)
    requires ty == TInt || ty == TFloat
    ensures var o := Operand(sys, fl, folding, Literal(Int(n)), ty, cost); o.Some? && o.value.cost == cost + if ty == TFloat then 1 else 0
  {}

  /** A constant integer call counts from 0 again; a literal or a folded constant adds to what was counted. */
  lemma ConstantOperand(sys: Sys, fl: Floats, folding: bool, t: Tree, ty: Ty, cost: nat)
    requires Scalars(t) && Fold(sys, fl, t).Some? && Fold(sys, fl, t).value.Int? && (ty == TInt || ty == TFloat)
    ensures var o := Operand(sys, fl, folding, t, ty, cost);
      o.Some? && o.value.cost == (if !folding && t.Apply? then 0 else cost) + if ty == TFloat then 1 else 0
  {
    hide Resolve, Eval;
    if !folding && t.Apply? {
      FoldCompiles(sys, fl, t, Some(ty), 0);
      assert Compile(sys, fl, false, t, Some(ty), cost) == Compile(sys, fl, false, t, Some(ty), 0);
    }
  }
}
