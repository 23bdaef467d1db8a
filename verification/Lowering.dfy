/**
  Script expressions, what they mean, and the code the generator lowers them to.

  `Meaning` is the denotation: it evaluates children by name, knows nothing of stacks,
  slots or jumps, and threads only the environment. `Lower` is the generator: it gets
  the compile-time stack and the slots of the open scopes, and builds structured code.
*/
module Lowering {
  import opened Machine
  import opened Blocks

  datatype Expr =
    | Literal(push: Prim, arg: int)
    | Outer(up: nat)                                          // `this` (0) and `prev` (1, 2, ...)
    | Native(sig: Signature, args: Parts)
    | Saved(kind: ReadKind, slot: nat, ty: Ty)                // ctx:saved:x, ctx:arg:x, ctx:list:x
    | Logic(any: bool, negated: bool, kids: Parts)            // AND, OR, NAND, NOR
    | Total(product: bool, op: Prim, ty: Ty, terms: Parts)    // ADD, MUL; terms may carry conditions
    | Select(exp: seq<Ty>, clauses: Parts)
    | Sequence(exp: seq<Ty>, clauses: Parts)
    | Switch(exp: seq<Ty>, value: Expr, cases: Parts)
    | ValueOr(exp: seq<Ty>, cond: Expr, value: Expr, default: Expr)
    | Random(exp: seq<Ty>, seed: int, branches: Parts)
    | Within(scope: Expr, body: Expr)                         // `scope = { body }`
    | WithinValid(ty: Ty, scope: Expr, body: Expr)            // `scope ?= { body }`
    | Effects(children: Parts)

  datatype Parts = End | Part(test: Test, body: Expr, rest: Parts)

  datatype Test = Always | When(cond: Expr)

  /** The bit patterns of 0.0 and 1.0 as an argument. */
  const ZERO_BITS: int := 0
  const ONE_BITS: int := 0x3FF0_0000_0000_0000

  // --- types ------------------------------------------------------------------------------

  function Last<T>(s: seq<T>): T
    requires s != []
  {
    s[|s| - 1]
  }

  /** What an expression leaves: one value or, for an effect, none. */
  function ResultOf(x: Expr, tys: seq<Ty>): seq<Ty> {
    match x
    case Literal(push, _) => if push.PushBool? then [TBool] else if push.PushInt? then [TInt] else [TFloat]
    case Outer(up) => if up < |tys| then [tys[|tys| - 1 - up]] else []
    case Native(sig, _) => if sig.ret.Some? then [sig.ret.value] else []
    case Saved(_, _, ty) => [ty]
    case Logic(_, _, _) => [TBool]
    case Total(_, _, ty, _) => [ty]
    case Select(exp, _) => exp
    case Sequence(exp, _) => exp
    case Switch(exp, _, _) => exp
    case ValueOr(exp, _, _, _) => exp
    case Random(exp, _, _) => exp
    case Within(scope, body) => ResultOf(body, tys + ResultOf(scope, tys))
    case WithinValid(exp, _, _) => [exp]
    case Effects(_) => []
  }

  /** The registered conversions: an integer where a float is expected. */
  predicate Coercible(from: seq<Ty>, exp: seq<Ty>) { from == exp || (from == [TInt] && exp == [TFloat]) }

  /** A term, as an argument of a native function would be: a truth value counts as a number, too. */
  predicate Widens(from: seq<Ty>, exp: seq<Ty>) { Coercible(from, exp) || (from == [TBool] && (exp == [TFloat] || exp == [TInt])) }

  /** A stage of a sequence: a number counts as a truth value, and a truth value as a float. */
  predicate Joins(from: seq<Ty>, exp: seq<Ty>) {
    || Coercible(from, exp)
    || (exp == [TBool] && (from == [TInt] || from == [TFloat]))
    || (exp == [TFloat] && from == [TBool])
  }

  /** What `Coerce` has code for. */
  predicate Convertible(from: seq<Ty>, exp: seq<Ty>) {
    from == exp || (|from| == 1 && |exp| == 1 && Castable(from[0], exp[0]))
  }

  lemma CoercibleConvertible(from: seq<Ty>, exp: seq<Ty>)
    requires Coercible(from, exp)
    ensures Convertible(from, exp)
  {}

  predicate Numeric(ty: Ty) { ty == TInt || ty == TFloat }

  predicate Scalar(exp: seq<Ty>) { exp == [] || exp == [TBool] || exp == [TInt] || exp == [TFloat] }

  predicate Conditional(parts: Parts) { parts.Part? && (parts.test.When? || Conditional(parts.rest)) }

  predicate TotalOk(product: bool, op: Prim, ty: Ty) {
    match op
    case Sum => !product && ty == TFloat
    case Mul => product && ty == TFloat
    case Call(sig) => Numeric(ty) && sig.scope == None && sig.args == [ty, ty] && sig.ret == Some(ty)
    case _ => false
  }

  /** The fold of an implicit block converts every truth value but a first one nothing was pushed under. */
  predicate FirstOk(op: Prim, terms: Parts, tys: seq<Ty>) {
    terms.Part? && !op.Call? && !Conditional(terms) ==> ResultOf(terms.body, tys) != [TBool]
  }

  /** How the children of a block may be used there. */
  datatype Role =
    | Argument(types: seq<Ty>)        // each has the next of these types
    | Operand                         // a bool, no condition
    | Term(exp: seq<Ty>)              // converted to the expected type, condition optional
    | Alternative(exp: seq<Ty>)       // converted; a valued select has a condition on all but the last
    | Stage(exp: seq<Ty>)             // converted, condition required
    | Case(value: seq<Ty>, exp: seq<Ty>)
    | Weighted(exp: seq<Ty>)

  /** The value a test must produce, and whether the part may come here with or without one. */
  predicate TestOk(w: World, role: Role, p: Parts, tys: seq<Ty>)
    requires p.Part?
    decreases p, 0
  {
    match p.test
    case Always =>
      (match role
       case Argument(_) => true
       case Operand => true
       case Term(_) => true
       case Alternative(exp) => exp == [] || p.rest == End
       case Case(_, _) => p.rest == End
       case _ => false)
    case When(c) =>
      && Check(w, c, tys)
      && (match role
          case Term(_) => ResultOf(c, tys) == [TBool]
          case Alternative(exp) => ResultOf(c, tys) == [TBool] && (exp == [] || p.rest != End)
          case Stage(_) => ResultOf(c, tys) == [TBool]
          case Case(value, _) => ResultOf(c, tys) == value
          case Weighted(_) => Coercible(ResultOf(c, tys), [TFloat])
          case _ => false)
  }

  function ExpOf(role: Role): seq<Ty> {
    match role
    case Argument(types) => if types == [] then [] else types[..1]
    case Operand => [TBool]
    case Term(exp) => exp
    case Alternative(exp) => exp
    case Stage(exp) => exp
    case Case(_, exp) => exp
    case Weighted(exp) => exp
  }

  /** The types a child may have, whose value is then brought to the expected one. */
  predicate Admits(role: Role, found: seq<Ty>) {
    match role
    case Argument(_) => found == ExpOf(role)
    case Operand => found == ExpOf(role)
    case Term(exp) => Widens(found, exp)
    case Stage(exp) => Joins(found, exp)
    case _ => Coercible(found, ExpOf(role))
  }

  function Onward(role: Role): Role {
    if role.Argument? && role.types != [] then Argument(role.types[1..]) else role
  }

  predicate CheckParts(w: World, role: Role, p: Parts, tys: seq<Ty>)
    decreases p, 1
  {
    match p
    case End => role.Argument? ==> role.types == []
    case Part(_, body, rest) =>
      && (role.Argument? ==> role.types != [])
      && TestOk(w, role, p, tys)
      && Check(w, body, tys)
      && Admits(role, ResultOf(body, tys))
      && CheckParts(w, Onward(role), rest, tys)
  }

  /** What is known of a term that may be folded. */
  lemma TermChecked(w: World, p: Parts, ty: Ty, tys: seq<Ty>)
    requires p.Part? && CheckParts(w, Term([ty]), p, tys)
    ensures Check(w, p.body, tys) && Convertible(ResultOf(p.body, tys), [ty])
    ensures p.test.When? ==> Check(w, p.test.cond, tys) && ResultOf(p.test.cond, tys) == [TBool]
  {
    hide Check, ResultOf;
  }

  /** The checks of the generator: it raises a parse error for anything else. */
  predicate Check(w: World, x: Expr, tys: seq<Ty>)
    decreases x, 0
  {
    match x
    case Literal(push, _) => push.PushBool? || push.PushInt? || push.PushFloat?
    case Outer(up) => up < |tys|
    case Native(sig, args) => CheckParts(w, Argument(sig.args), args, tys) && (sig.scope.Some? ==> tys != [] && Last(tys) == sig.scope.value)
    case Saved(kind, slot, ty) => w.slotType(kind, slot) == Some(ty)
    case Logic(_, _, kids) => kids != End && CheckParts(w, Operand, kids, tys)
    case Total(product, op, ty, terms) => terms != End && TotalOk(product, op, ty) && CheckParts(w, Term([ty]), terms, tys) && FirstOk(op, terms, tys)
    case Select(exp, clauses) => Scalar(exp) && (exp != [] ==> clauses != End) && CheckParts(w, Alternative(exp), clauses, tys)
    case Sequence(exp, clauses) => Scalar(exp) && CheckParts(w, Stage(exp), clauses, tys)
    case Switch(exp, value, cases) =>
      && Check(w, value, tys) && |ResultOf(value, tys)| == 1 && ResultOf(value, tys) != [TBool] && |exp| <= 1
      && CheckParts(w, Case(ResultOf(value, tys), exp), cases, tys + ResultOf(value, tys))
      && cases != End && cases.test.When?
    case ValueOr(exp, cond, value, default) =>
      && |exp| == 1
      && Check(w, cond, tys) && ResultOf(cond, tys) == [TBool]
      && Check(w, value, tys) && Coercible(ResultOf(value, tys), exp)
      && Check(w, default, tys) && Coercible(ResultOf(default, tys), exp)
    case Random(exp, _, branches) => |exp| <= 1 && branches != End && CheckParts(w, Weighted(exp), branches, tys)
    case Within(scope, body) => Check(w, scope, tys) && |ResultOf(scope, tys)| == 1 && Check(w, body, tys + ResultOf(scope, tys))
    case WithinValid(exp, scope, body) =>
      && Scalar([exp])
      && Check(w, scope, tys) && |ResultOf(scope, tys)| == 1
      && Check(w, body, tys + ResultOf(scope, tys)) && ResultOf(body, tys + ResultOf(scope, tys)) == [exp]
    case Effects(children) => CheckParts(w, Term([]), children, tys)
  }

  // --- meaning ----------------------------------------------------------------------------

  datatype Answer = Gives(values: seq<Value>, env: Env) | Raises(error: Error) | NoAnswer

  function LiteralValue(w: World, push: Prim, arg: int): Value {
    if push.PushBool? then Bool(arg != 0) else if push.PushInt? then Int(arg) else Float(w.unpack(arg))
  }

  /** A native function on its scope, the innermost one, and its arguments. */
  function CallAnswer(w: World, sig: Signature, sc: seq<Value>, args: seq<Value>, e: Env): Answer {
    if sig.scope.Some? && (sc == [] || !w.valid(Last(sc))) then Raises(InvalidScope)
    else match w.call(sig.id, if sig.scope.Some? then Some(Last(sc)) else None, args, e)
      case Raised(err) => Raises(err)
      case Returned(v, e') => Gives(if sig.ret.Some? then [OfType(sig.ret.value, v)] else [], e')
  }

  function Convert(w: World, exp: seq<Ty>, vs: seq<Value>): seq<Value> {
    if |exp| == 1 && |vs| == 1 then [CastTo(w, exp[0], vs[0])] else vs
  }

  function Converted(w: World, exp: seq<Ty>, a: Answer): Answer {
    if a.Gives? then Gives(Convert(w, exp, a.values), a.env) else a
  }

  function Identity(w: World, product: bool, ty: Ty): Value {
    if ty == TInt then Int(if product then 1 else 0) else Float(w.unpack(if product then ONE_BITS else ZERO_BITS))
  }

  function Apply(w: World, op: Prim, a: Value, b: Value, e: Env): Answer {
    match op
    case Call(sig) => CallAnswer(w, sig, [], [a, b], e)
    case Sum => if a.Float? && b.Float? then Gives([Float(w.add(a.r, b.r))], e) else NoAnswer
    case Mul => if a.Float? && b.Float? then Gives([Float(w.mul(a.r, b.r))], e) else NoAnswer
    case _ => NoAnswer
  }

  function Start(w: World, exp: seq<Ty>): seq<Value> {
    if exp == [] then [] else if exp == [TBool] then [Bool(true)] else if exp == [TInt] then [Int(0)] else [Float(w.unpack(ZERO_BITS))]
  }

  /** A stage's value joins what the sequence has collected. */
  function Collect(w: World, exp: seq<Ty>, acc: seq<Value>, vs: seq<Value>): seq<Value> {
    if |acc| != 1 || |vs| != 1 then []
    else if acc[0].Bool? && vs[0].Bool? then [Bool(acc[0].b && vs[0].b)]
    else if acc[0].Int? && vs[0].Int? then [Int(WrapInt(acc[0].i + vs[0].i))]
    else if acc[0].Float? && vs[0].Float? then [Float(w.add(acc[0].r, vs[0].r))]
    else []
  }

  function ModeOf(exp: Ty): int { if exp == TBool then 1 else if exp == TInt then 3 else if exp == TFloat then 2 else 0 }

  function Meaning(w: World, x: Expr, sc: seq<Value>, e: Env): Answer
    decreases x, 1
  {
    match x
    case Literal(push, arg) => Gives([LiteralValue(w, push, arg)], e)
    case Outer(up) => if up < |sc| then Gives([sc[|sc| - 1 - up]], e) else NoAnswer
    case Native(sig, args) =>
      (match Args(w, args, sc, e)
       case Gives(vs, e') => CallAnswer(w, sig, sc, vs, e')
       case other => other)
    case Saved(kind, slot, ty) =>
      (match w.read(kind, slot, e)
       case ReadFailed(err) => Raises(err)
       case Got(v) => if TypeOf(v) != ty then Raises(TypeMismatch) else Gives([v], e))
    case Logic(any, negated, kids) =>
      (match Decide(w, any, kids, sc, e)
       case Gives(vs, e') => if negated && |vs| == 1 && vs[0].Bool? then Gives([Bool(!vs[0].b)], e') else Gives(vs, e')
       case other => other)
    case Total(product, op, ty, terms) =>
      if Conditional(terms) then Accumulate(w, op, ty, terms, [Identity(w, product, ty)], sc, e) else Accumulate(w, op, ty, terms, [], sc, e)
    case Select(exp, clauses) => FirstOf(w, exp, clauses, sc, e)
    case Sequence(exp, clauses) => WhileTrue(w, exp, clauses, Start(w, exp), sc, e)
    case Switch(exp, value, cases) =>
      (match Meaning(w, value, sc, e)
       case Gives(vs, e') => if |vs| == 1 then CaseOf(w, exp, cases, vs[0], sc + vs, e') else NoAnswer
       case other => other)
    case ValueOr(exp, cond, value, default) =>
      (match Meaning(w, cond, sc, e)
       case Gives(vs, e') =>
         if |vs| == 1 && vs[0].Bool? then Converted(w, exp, if vs[0].b then Meaning(w, value, sc, e') else Meaning(w, default, sc, e')) else NoAnswer
       case other => other)
    case Random(exp, seed, branches) =>
      (match Weigh(w, branches, sc, e, [])
       case Weighed(ws, e') =>
         var cums := Cumulative(w, ws);
         if cums == [] then NoAnswer else Chosen(w, exp, branches, cums, 0, w.mul(w.chance(seed, e), Last(cums)), sc, e')
       case Unweighed(a) => a)
    case Within(scope, body) =>
      (match Meaning(w, scope, sc, e)
       case Gives(vs, e') => Meaning(w, body, sc + vs, e')
       case other => other)
    case WithinValid(exp, scope, body) =>
      (match Meaning(w, scope, sc, e)
       case Gives(vs, e') =>
         if |vs| != 1 then NoAnswer
         else if w.valid(vs[0]) then Meaning(w, body, sc + vs, e') else Gives([DefaultOf(ModeOf(exp))], e')
       case other => other)
    case Effects(children) => Perform(w, children, sc, e)
  }

  /** A condition: absent means true. */
  function Holds(w: World, t: Test, sc: seq<Value>, e: Env): Answer
    decreases t, 0
  {
    match t
    case Always => Gives([Bool(true)], e)
    case When(c) => Meaning(w, c, sc, e)
  }

  function Args(w: World, p: Parts, sc: seq<Value>, e: Env): Answer
    decreases p, 0
  {
    match p
    case End => Gives([], e)
    case Part(_, body, rest) =>
      match Meaning(w, body, sc, e)
      case Gives(vs, e1) =>
        (match Args(w, rest, sc, e1)
         case Gives(us, e2) => Gives(vs + us, e2)
         case other => other)
      case other => other
  }

  /** The first child equal to `any` decides; the ones behind it are not evaluated. */
  function Decide(w: World, any: bool, p: Parts, sc: seq<Value>, e: Env): Answer
    decreases p, 0
  {
    match p
    case End => Gives([Bool(!any)], e)
    case Part(_, body, rest) =>
      match Meaning(w, body, sc, e)
      case Gives(vs, e') => if vs == [Bool(any)] then Gives([Bool(any)], e') else Decide(w, any, rest, sc, e')
      case other => other
  }

  /** One term joins the running result. */
  function AddTerm(w: World, op: Prim, acc: seq<Value>, a: Answer): Answer {
    if !a.Gives? || acc == [] then a
    else if |a.values| != 1 then NoAnswer
    else Apply(w, op, acc[0], a.values[0], a.env)
  }

  /** Folds the terms whose condition holds, from the left. */
  function Accumulate(w: World, op: Prim, ty: Ty, p: Parts, acc: seq<Value>, sc: seq<Value>, e: Env): Answer
    decreases p, 0
  {
    match p
    case End => Gives(acc, e)
    case Part(test, body, rest) =>
      match Holds(w, test, sc, e)
      case Gives(c, e1) =>
        if c == [Bool(false)] then Accumulate(w, op, ty, rest, acc, sc, e1)
        else
          (match AddTerm(w, op, acc, Converted(w, [ty], Meaning(w, body, sc, e1)))
           case Gives(vs, e2) => Accumulate(w, op, ty, rest, vs, sc, e2)
           case other => other)
      case other => other
  }

  function FirstOf(w: World, exp: seq<Ty>, p: Parts, sc: seq<Value>, e: Env): Answer
    decreases p, 0
  {
    match p
    case End => Gives([], e)
    case Part(test, body, rest) =>
      match Holds(w, test, sc, e)
      case Gives(c, e') => if c == [Bool(true)] then Converted(w, exp, Meaning(w, body, sc, e')) else FirstOf(w, exp, rest, sc, e')
      case other => other
  }

  function WhileTrue(w: World, exp: seq<Ty>, p: Parts, acc: seq<Value>, sc: seq<Value>, e: Env): Answer
    decreases p, 0
  {
    match p
    case End => Gives(acc, e)
    case Part(test, body, rest) =>
      match Holds(w, test, sc, e)
      case Gives(c, e1) =>
        if c != [Bool(true)] then Gives(acc, e1)
        else
          (match Converted(w, exp, Meaning(w, body, sc, e1))
           case Gives(vs, e2) => WhileTrue(w, exp, rest, Collect(w, exp, acc, vs), sc, e2)
           case other => other)
      case other => other
  }

  /** The first case whose value equals the switch value; without one, the default or an error. */
  function CaseOf(w: World, exp: seq<Ty>, p: Parts, v: Value, sc: seq<Value>, e: Env): Answer
    decreases p, 0
  {
    match p
    case End => if exp == [] then Gives([], e) else Raises(NoMatchingCase)
    case Part(test, body, rest) =>
      if test.Always? then Converted(w, exp, Meaning(w, body, sc, e))
      else match Meaning(w, test.cond, sc, e)
        case Gives(c, e') =>
          if |c| != 1 then NoAnswer
          else if SameValue(w, v, c[0]) then Converted(w, exp, Meaning(w, body, sc, e'))
          else CaseOf(w, exp, rest, v, sc, e')
        case other => other
  }

  /** Runs the children in order; a condition that fails ends the whole block. */
  function Perform(w: World, p: Parts, sc: seq<Value>, e: Env): Answer
    decreases p, 0
  {
    match p
    case End => Gives([], e)
    case Part(test, body, rest) =>
      match Holds(w, test, sc, e)
      case Gives(c, e1) =>
        if c == [Bool(false)] then Gives([], e1)
        else
          (match Meaning(w, body, sc, e1)
           case Gives(_, e2) => Perform(w, rest, sc, e2)
           case other => other)
      case other => other
  }

  datatype Weights = Weighed(ws: seq<real>, env: Env) | Unweighed(why: Answer)

  function Weigh(w: World, p: Parts, sc: seq<Value>, e: Env, ws: seq<real>): Weights
    decreases p, 0
  {
    match p
    case End => Weighed(ws, e)
    case Part(test, _, rest) =>
      match Converted(w, [TFloat], Holds(w, test, sc, e))
      case Gives(vs, e') =>
        if |vs| != 1 || !vs[0].Float? then Unweighed(NoAnswer)
        else if !w.lessEq(0.0, vs[0].r) then Unweighed(Raises(BadWeight))
        else Weigh(w, rest, sc, e', ws + [vs[0].r])
      case other => Unweighed(other)
  }

  /** Running totals, in the order the weights are added up. */
  function Cumulative(w: World, ws: seq<real>): (r: seq<real>)
    ensures |r| == |ws|
  {
    if ws == [] then []
    else
      var before := Cumulative(w, ws[..|ws| - 1]);
      before + [if before == [] then Last(ws) else w.add(Last(ws), Last(before))]
  }

  /** The first branch whose running total reaches the roll. */
  function Chosen(w: World, exp: seq<Ty>, p: Parts, cums: seq<real>, k: nat, roll: real, sc: seq<Value>, e: Env): Answer
    decreases p, 0
  {
    match p
    case End => if exp == [] then Gives([], e) else NoAnswer
    case Part(_, body, rest) =>
      if k >= |cums| then NoAnswer
      else if w.lessEq(roll, cums[k]) then Converted(w, exp, Meaning(w, body, sc, e))
      else Chosen(w, exp, rest, cums, k + 1, roll, sc, e)
  }

  // --- lowering ---------------------------------------------------------------------------

  function Op1(p: Prim, arg: int): Node { Do(Command(Basic(p), arg)) }

  function EraseSlot(slot: nat): Node { Do(Command(Erase, slot)) }

  function Coerce(from: seq<Ty>, exp: seq<Ty>): Node {
    if from == exp || |from| != 1 || |exp| != 1 then Nop else Op1(Cast(from[0], exp[0]), 0)
  }

  /** The code of an expression brought to the expected type. */
  function Valued(x: Expr, exp: seq<Ty>, m: seq<Ty>, sl: seq<nat>, tys: seq<Ty>): Node
    decreases x, 2
  {
    Seq(Lower(x, m, sl, tys), Coerce(ResultOf(x, tys), exp))
  }

  /** A guarded clause: test, skip, body, jump behind the enclosing block. */
  function Clause(test: Node, body: Node, m: seq<Ty>): Node {
    Block(Seq(test, Seq(Exit(CondJump, 0, 0), Seq(body, Exit(Jump, 0, 1)))), m)
  }

  function ScopeSlot(sl: seq<nat>): nat { if sl == [] then 0 else Last(sl) }

  function IdentityPush(product: bool, ty: Ty): Node {
    if ty == TInt then Op1(PushInt, if product then 1 else 0) else Op1(PushFloat, if product then ONE_BITS else ZERO_BITS)
  }

  function StartPush(exp: seq<Ty>): Node {
    if exp == [] then Nop else if exp == [TBool] then Op1(PushBool, 1) else if exp == [TInt] then Op1(PushInt, 0) else Op1(PushFloat, ZERO_BITS)
  }

  function CollectOp(exp: seq<Ty>): Node {
    if exp == [] then Nop else if exp == [TBool] then Op1(AndBin, 0) else if exp == [TInt] then Op1(SumInt, 0) else Op1(Sum, 0)
  }

  function Floats(n: nat): (r: seq<Ty>)
    ensures |r| == n
  {
    seq(n, _ => TFloat)
  }

  function CountParts(p: Parts): nat { if p.End? then 0 else 1 + CountParts(p.rest) }

  /** Erases the slots from `slot + n` down to `slot`. */
  function EraseDown(slot: nat, n: nat): Node {
    if n == 0 then EraseSlot(slot) else Seq(EraseSlot(slot + n), EraseDown(slot, n - 1))
  }

  function Lower(x: Expr, m: seq<Ty>, sl: seq<nat>, tys: seq<Ty>): Node
    decreases x, 1
  {
    match x
    case Literal(push, arg) => Op1(push, arg)
    case Outer(up) => Op1(PushSlot, if up < |sl| then sl[|sl| - 1 - up] else 0)
    case Native(sig, args) => Seq(LowerArgs(args, m, sl, tys), Op1(Call(sig), ScopeSlot(sl)))
    case Saved(kind, slot, ty) => Unread(|m|, Command(Read(kind), slot), ty)
    case Logic(any, negated, kids) =>
      var block := Block(LowerLogic(any, kids, true, m, sl, tys), m + [TBool]);
      if negated then Seq(block, Op1(Not, 0)) else block
    case Total(product, op, ty, terms) =>
      if Conditional(terms) then Seq(IdentityPush(product, ty), LowerTerms(op, ty, terms, false, m, sl, tys))
      else LowerTerms(op, ty, terms, true, m, sl, tys)
    case Select(exp, clauses) => Block(LowerSelect(exp, clauses, m, sl, tys), m + exp)
    case Sequence(exp, clauses) => Seq(StartPush(exp), Block(LowerStages(exp, clauses, m, sl, tys), m + exp))
    case Switch(exp, value, cases) =>
      var t := ResultOf(value, tys);
      Seq(Lower(value, m, sl, tys),
          Seq(Block(LowerCases(exp, cases, |m|, m + t, sl + [|m|], tys + t), m + t + exp), EraseSlot(|m|)))
    case ValueOr(exp, cond, value, default) =>
      Block(Seq(Clause(Lower(cond, m, sl, tys), Valued(value, exp, m, sl, tys), m), Valued(default, exp, m, sl, tys)), m + exp)
    case Random(exp, seed, branches) =>
      var n := CountParts(branches);
      Seq(Op1(Chance, seed),
      Seq(LowerWeights(branches, 0, m, sl, tys),
      Seq(Op1(MulIntoSlot, Pack2(|m|, |m| + n)),
      Seq(Block(LowerBranches(exp, branches, 0, n, m, sl, tys), m + Floats(1 + n) + exp),
          EraseDown(|m|, n)))))
    case Within(scope, body) =>
      var t := ResultOf(scope, tys);
      Seq(Lower(scope, m, sl, tys), Seq(Lower(body, m + t, sl + [|m|], tys + t), EraseSlot(|m|)))
    case WithinValid(exp, scope, body) =>
      var t := ResultOf(scope, tys);
      Seq(Lower(scope, m, sl, tys),
          Block(Seq(Exit(ScopeGuard, ModeOf(exp), 0), Seq(Lower(body, m + t, sl + [|m|], tys + t), EraseSlot(|m|))), m + [exp]))
    case Effects(children) => Block(LowerEffects(children, m, sl, tys), m)
  }

  function LowerArgs(p: Parts, m: seq<Ty>, sl: seq<nat>, tys: seq<Ty>): Node
    decreases p, 0
  {
    match p
    case End => Nop
    case Part(_, body, rest) => Seq(Lower(body, m, sl, tys), LowerArgs(rest, m + ResultOf(body, tys), sl, tys))
  }

  function ShortOp(any: bool, first: bool): Op {
    if first then (if any then CondJumpTrueGet else CondJumpGet) else (if any then OrJump else AndJump)
  }

  function LowerLogic(any: bool, p: Parts, first: bool, m: seq<Ty>, sl: seq<nat>, tys: seq<Ty>): Node
    decreases p, 0
  {
    match p
    case End => Nop
    case Part(_, body, rest) =>
      Seq(Lower(body, if first then m else m + [TBool], sl, tys),
          Seq(Exit(ShortOp(any, first), 0, 0), LowerLogic(any, rest, false, m, sl, tys)))
  }

  /** One term: its value and, except for the first of an unconditional fold, the fold operation. */
  function TermCode(op: Prim, value: Node, first: bool): Node {
    if first then value else Seq(value, Op1(op, 0))
  }

  function LowerTerms(op: Prim, ty: Ty, p: Parts, first: bool, m: seq<Ty>, sl: seq<nat>, tys: seq<Ty>): Node
    decreases p, 0
  {
    match p
    case End => Nop
    case Part(test, body, rest) =>
      var here := if first then m else m + [ty];
      var code := TermCode(op, Valued(body, [ty], here, sl, tys), first);
      var term := match test
        case Always => code
        case When(c) => Block(Seq(Lower(c, here, sl, tys), Seq(Exit(CondJump, 0, 0), code)), here);
      Seq(term, LowerTerms(op, ty, rest, false, m, sl, tys))
  }

  function LowerSelect(exp: seq<Ty>, p: Parts, m: seq<Ty>, sl: seq<nat>, tys: seq<Ty>): Node
    decreases p, 0
  {
    match p
    case End => Nop
    case Part(test, body, rest) =>
      match test
      case Always => Seq(Seq(Valued(body, exp, m, sl, tys), Exit(Jump, 0, 0)), LowerSelect(exp, rest, m, sl, tys))
      case When(c) => Seq(Clause(Lower(c, m, sl, tys), Valued(body, exp, m, sl, tys), m), LowerSelect(exp, rest, m, sl, tys))
  }

  function LowerStages(exp: seq<Ty>, p: Parts, m: seq<Ty>, sl: seq<nat>, tys: seq<Ty>): Node
    decreases p, 0
  {
    match p
    case End => Nop
    case Part(test, body, rest) =>
      match test
      case Always => Stuck
      case When(c) =>
        Seq(Lower(c, m + exp, sl, tys),
        Seq(Exit(CondJump, 0, 0),
        Seq(Seq(Valued(body, exp, m + exp, sl, tys), CollectOp(exp)),
            LowerStages(exp, rest, m, sl, tys))))
  }

  function LowerCases(exp: seq<Ty>, p: Parts, slot: nat, m: seq<Ty>, sl: seq<nat>, tys: seq<Ty>): Node
    decreases p, 0
  {
    match p
    case End => if exp == [] then Nop else Op1(NoMatch, 0)
    case Part(test, body, rest) =>
      match test
      case Always => Valued(body, exp, m, sl, tys)
      case When(c) =>
        var t := ResultOf(c, tys);
        Seq(Clause(Seq(Lower(c, m, sl, tys), Op1(CompareEqual, Pack2(slot, |m|))),
                   Seq(EraseSlot(|m|), Valued(body, exp, m, sl, tys)), m + t),
        Seq(EraseSlot(|m|), LowerCases(exp, rest, slot, m, sl, tys)))
  }

  function LowerWeights(p: Parts, k: nat, m: seq<Ty>, sl: seq<nat>, tys: seq<Ty>): Node
    decreases p, 0
  {
    match p
    case End => Nop
    case Part(test, _, rest) =>
      match test
      case Always => Stuck
      case When(c) =>
        Seq(Valued(c, [TFloat], m + Floats(1 + k), sl, tys),
        Seq(Op1(CheckWeight, 0),
        Seq(if k == 0 then Nop else Op1(AddToSlot, Pack2(|m| + 1 + k, |m| + k)),
            LowerWeights(rest, k + 1, m, sl, tys))))
  }

  function LowerBranches(exp: seq<Ty>, p: Parts, k: nat, n: nat, m: seq<Ty>, sl: seq<nat>, tys: seq<Ty>): Node
    decreases p, 0
  {
    match p
    case End => if exp == [] then Nop else Stuck
    case Part(_, body, rest) =>
      Seq(Clause(Op1(CompareLessEq, Pack2(|m|, |m| + 1 + k)), Valued(body, exp, m + Floats(1 + n), sl, tys), m + Floats(1 + n)),
          LowerBranches(exp, rest, k + 1, n, m, sl, tys))
  }

  function LowerEffects(p: Parts, m: seq<Ty>, sl: seq<nat>, tys: seq<Ty>): Node
    decreases p, 0
  {
    match p
    case End => Nop
    case Part(test, body, rest) =>
      match test
      case Always => Seq(Lower(body, m, sl, tys), LowerEffects(rest, m, sl, tys))
      case When(c) => Seq(Lower(c, m, sl, tys), Seq(Exit(CondJump, 0, 0), Seq(Lower(body, m, sl, tys), LowerEffects(rest, m, sl, tys))))
  }
}
