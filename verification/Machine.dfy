/**
  The stack machine that compiled scripts run on.

  A command is an operation with one integer argument. Operations that steer
  control (jumps, the nullable scope guard, iterators, list pipelines) store
  command indexes in that argument or in the data slots behind them; every other
  operation only changes the operand stack and the environment.

  `Run` executes a range of commands. It is also the proof instrument of this
  project: a `Code` value carries, next to the commands,
    - `keep`: a command whose flag is cleared is stepped over, which is how a
      peephole that has decided to drop commands, but not yet compacted them, is
      given a meaning;
    - `model`: the types the compiler expects on the frame's stack when the command
      is reached. When `watch` is set, a run that meets a stack the compiler did not
      predict, executes a data slot, or erases a slot outside the frame, ends in
      `OffModel`.
  The machine itself is the special case `Plain(cmds)`: everything kept, nothing
  watched.
*/
module Machine {

  datatype Option<+T> = None | Some(value: T)

  datatype Ty = TBool | TInt | TFloat | TString | TObject(kind: nat) | TContext | TNone

  /** One stack element with its type tag. */
  datatype Value =
    | Bool(b: bool)
    | Int(i: int)
    | Float(r: real)
    | Str(text: nat)
    | Object(kind: nat, handle: int)
    | Context
    | Invalid

  function TypeOf(v: Value): Ty {
    match v
    case Bool(_) => TBool
    case Int(_) => TInt
    case Float(_) => TFloat
    case Str(_) => TString
    case Object(k, _) => TObject(k)
    case Context => TContext
    case Invalid => TNone
  }

  /** The value a native function declared to return `ty` leaves on the stack: its static type is the tag. */
  function OfType(ty: Ty, v: Value): (r: Value)
    ensures TypeOf(r) == ty
    ensures TypeOf(v) == ty ==> r == v
  {
    if TypeOf(v) == ty then v
    else match ty
      case TBool => Bool(false)
      case TInt => Int(0)
      case TFloat => Float(0.0)
      case TString => Str(0)
      case TObject(k) => Object(k, 0)
      case TContext => Context
      case TNone => Invalid
  }

  /** What a script changes besides its operand stack. */
  datatype Env = Env(args: seq<Value>, saved: seq<Value>, lists: seq<seq<Value>>, result: Value, state: nat)

  datatype Error =
    | StackOverflow
    | StackEmpty
    | TypeMismatch
    | InvalidScope
    | NoMatchingCase
    | BadWeight
    | NoSuchSection
    | Native(code: nat)

  datatype ReadKind = SavedValue | ArgValue | ListHandle

  /** A registered function: the scope and arguments it takes off the stack and what it returns. */
  datatype Signature = Signature(id: nat, scope: Option<Ty>, args: seq<Ty>, ret: Option<Ty>)

  /** Operations that never touch the command index. */
  datatype Prim =
    | PushBool | PushInt | PushFloat | PushInvalid
    | PushSlot                        // copy of a slot of the running frame (this/prev)
    | Not | AndBin | Sum | SumInt | Mul
    | Cast(from: Ty, to: Ty)          // conversions between numbers and truth values
    | CompareEqual | CompareLessEq    // two packed slots, pushes a bool
    | AddToSlot | MulIntoSlot         // two packed slots, result stored in the first
    | Chance | CheckWeight
    | NoMatch
    | Return
    | Call(sig: Signature)

  datatype Op =
    | Jump | CondJump | CondJumpGet | CondJumpTrueGet | AndJump | OrJump | JumpInvalid
    | ScopeGuard                      // packed { target, default mode }
    | Erase | EraseRange | PushContext
    | Read(kind: ReadKind)
    | Basic(prim: Prim)
    | Iterator(id: nat, sections: nat)
    | Pipeline
    | PipelineData

  datatype Command = Command(op: Op, arg: int)

  // --- packed arguments ---------------------------------------------------------

  const HALF: int := 0x1_0000_0000
  const INT32_MIN: int := -0x8000_0000
  const INT32_MAX: int := 0x7FFF_FFFF

  predicate FitsInt32(x: int) { INT32_MIN <= x <= INT32_MAX }

  function LowHalf(packed: int): int {
    var l := packed % HALF;
    if l > INT32_MAX then l - HALF else l
  }

  function HighHalf(packed: int): int { packed / HALF }

  function Pack2(low: int, high: int): int { high * HALF + low % HALF }

  lemma Unpack2(low: int, high: int)
    ensures HighHalf(Pack2(low, high)) == high
    ensures FitsInt32(low) ==> LowHalf(Pack2(low, high)) == low
  {
    var m := low % HALF;
    assert (high * HALF + m) / HALF == high && (high * HALF + m) % HALF == m;
  }

  // --- the world a script runs in -------------------------------------------------

  datatype CallResult = Returned(value: Value, env: Env) | Raised(error: Error)

  datatype ReadResult = Got(value: Value) | ReadFailed(error: Error)

  /** Whether a callback answers, and with which type. */
  datatype Reply = NoReply | AnyReply | TypedReply(ty: Ty)

  /** What an iterator or a list pipeline does next, given the replies of its callbacks so far. */
  datatype Action =
    | Callback(section: nat, input: Option<Value>, reply: Reply)
    | Finish(stack: seq<Value>, env: Env)
    | Abort(error: Error)

  /**
    Everything the machine does not define itself: native functions, iterators,
    handle validity, reads of saved values and arguments, float arithmetic. `limit`
    bounds the callbacks of one iterator; results are stated for every limit.
  */
  datatype World = World(
    safe: bool,
    base: nat,
    capacity: nat,
    limit: nat,
    call: (nat, Option<Value>, seq<Value>, Env) -> CallResult,
    act: (Op, int, int, seq<Value>, seq<Value>, Env) -> Action,
    read: (ReadKind, int, Env) -> ReadResult,
    slotType: (ReadKind, int) -> Option<Ty>,
    valid: Value -> bool,
    rawBool: Value -> bool,
    rawInt: Value -> int,
    rawFloat: Value -> real,
    chance: (int, Env) -> real,
    add: (real, real) -> real,
    mul: (real, real) -> real,
    lessEq: (real, real) -> bool,
    close: (real, real) -> bool,
    toFloat: int -> real,
    unpack: int -> real)

  // --- one command ---------------------------------------------------------------

  /** What a command that does not steer control leaves behind. */
  datatype Effect = Fine(stack: seq<Value>, env: Env) | Broken(error: Error)

  function Push(w: World, s: seq<Value>, v: Value, e: Env): Effect {
    if |s| >= w.capacity then Broken(StackOverflow) else Fine(s + [v], e)
  }

  /** Erasing a slot outside the stack does nothing. */
  function EraseAt(s: seq<Value>, index: int): seq<Value> {
    if 0 <= index < |s| then s[..index] + s[index + 1..] else s
  }

  function EraseRangeAt(s: seq<Value>, index: int, count: int): seq<Value> {
    if count > 0 && 0 <= index && index + count <= |s| then s[..index] + s[index + count..] else s
  }

  datatype Popped<T> = Popped(value: T, rest: seq<Value>) | PopFailed(error: Error)

  /** The safe variants check the tag, the unsafe ones reinterpret whatever is on top. */
  function AsBool(w: World, v: Value): Option<bool> {
    if v.Bool? then Some(v.b) else if w.safe then None else Some(w.rawBool(v))
  }

  function AsInt(w: World, v: Value): Option<int> {
    if v.Int? then Some(v.i) else if w.safe then None else Some(w.rawInt(v))
  }

  function AsFloat(w: World, v: Value): Option<real> {
    if v.Float? then Some(v.r) else if w.safe then None else Some(w.rawFloat(v))
  }

  function Pop<T>(s: seq<Value>, read: Value -> Option<T>): Popped<T> {
    if s == [] then PopFailed(StackEmpty)
    else match read(s[|s| - 1])
      case None => PopFailed(TypeMismatch)
      case Some(x) => Popped(x, s[..|s| - 1])
  }

  function PopBool(w: World, s: seq<Value>): Popped<bool> { Pop(s, v => AsBool(w, v)) }
  function PopInt(w: World, s: seq<Value>): Popped<int> { Pop(s, v => AsInt(w, v)) }
  function PopFloat(w: World, s: seq<Value>): Popped<real> { Pop(s, v => AsFloat(w, v)) }

  function ReadAs(w: World, ty: Ty, v: Value): Option<Value> {
    match ty
    case TBool => (var b := AsBool(w, v); if b.None? then None else Some(Bool(b.value)))
    case TInt => (var i := AsInt(w, v); if i.None? then None else Some(Int(i.value)))
    case TFloat => (var r := AsFloat(w, v); if r.None? then None else Some(Float(r.value)))
    case _ => None
  }

  /** A number or truth value as a value of another such type; anything else stays as it is. */
  function CastTo(w: World, ty: Ty, v: Value): Value {
    if ty == TFloat && v.Int? then Float(w.toFloat(v.i))
    else if ty == TFloat && v.Bool? then Float(if v.b then 1.0 else 0.0)
    else if ty == TInt && v.Bool? then Int(if v.b then 1 else 0)
    else if ty == TBool && v.Int? then Bool(v.i != 0)
    else if ty == TBool && v.Float? then Bool(v.r != 0.0)
    else v
  }

  function FloatAt(w: World, s: seq<Value>, index: int): Option<real> {
    if 0 <= index < |s| then AsFloat(w, s[index]) else None
  }

  /** The 64-bit two's complement integer an exact result wraps to. */
  function WrapInt(x: int): int {
    var m := x % 0x1_0000_0000_0000_0000;
    if m >= 0x8000_0000_0000_0000 then m - 0x1_0000_0000_0000_0000 else m
  }

  function DefaultOf(mode: int): Value {
    if mode == 1 then Bool(false) else if mode == 2 then Float(0.0) else if mode == 3 then Int(0) else Invalid
  }

  function SameValue(w: World, a: Value, b: Value): bool {
    if TypeOf(a) != TypeOf(b) then false
    else if a.Float? then w.close(a.r, b.r)
    else a == b
  }

  predicate TagsMatch(vs: seq<Value>, tys: seq<Ty>) {
    |vs| == |tys| && forall k :: 0 <= k < |vs| ==> TypeOf(vs[k]) == tys[k]
  }

  function CallStep(w: World, sig: Signature, arg: int, s: seq<Value>, e: Env): Effect {
    var n := |sig.args|;
    if |s| < n then Broken(StackEmpty)
    else
      var slot := arg + w.base;
      var args := s[|s| - n..];
      if sig.scope.Some? && !(0 <= slot < |s| && (w.safe ==> TypeOf(s[slot]) == sig.scope.value)) then Broken(TypeMismatch)
      else if sig.scope.Some? && !w.valid(s[slot]) then Broken(InvalidScope)
      else if w.safe && !TagsMatch(args, sig.args) then Broken(TypeMismatch)
      else match w.call(sig.id, if sig.scope.Some? then Some(s[slot]) else None, args, e)
        case Raised(err) => Broken(err)
        case Returned(v, e') =>
          if sig.ret.None? then Fine(s[..|s| - n], e') else Push(w, s[..|s| - n], OfType(sig.ret.value, v), e')
  }

  function PrimStep(w: World, p: Prim, arg: int, s: seq<Value>, e: Env): Effect {
    match p
    case PushBool => Push(w, s, Bool(arg != 0), e)
    case PushInt => Push(w, s, Int(arg), e)
    case PushFloat => Push(w, s, Float(w.unpack(arg)), e)
    case PushInvalid => Push(w, s, Invalid, e)
    case PushSlot =>
      var slot := arg + w.base;
      Push(w, s, if 0 <= slot < |s| then s[slot] else Invalid, e)
    case Not =>
      (match PopBool(w, s)
       case PopFailed(err) => Broken(err)
       case Popped(b, r) => Push(w, r, Bool(!b), e))
    case AndBin =>
      (match PopBool(w, s)
       case PopFailed(err) => Broken(err)
       case Popped(b2, r2) =>
         match PopBool(w, r2)
         case PopFailed(err) => Broken(err)
         case Popped(b1, r) => Push(w, r, Bool(b1 && b2), e))
    case SumInt =>
      (match PopInt(w, s)
       case PopFailed(err) => Broken(err)
       case Popped(n2, r2) =>
         match PopInt(w, r2)
         case PopFailed(err) => Broken(err)
         case Popped(n1, r) => Push(w, r, Int(WrapInt(n1 + n2)), e))
    case Sum =>
      (match PopFloat(w, s)
       case PopFailed(err) => Broken(err)
       case Popped(n2, r2) =>
         match PopFloat(w, r2)
         case PopFailed(err) => Broken(err)
         case Popped(n1, r) => Push(w, r, Float(w.add(n1, n2)), e))
    case Mul =>
      (match PopFloat(w, s)
       case PopFailed(err) => Broken(err)
       case Popped(n2, r2) =>
         match PopFloat(w, r2)
         case PopFailed(err) => Broken(err)
         case Popped(n1, r) => Push(w, r, Float(w.mul(n1, n2)), e))
    case Cast(from, to) =>
      if s == [] then Broken(StackEmpty)
      else
        (match ReadAs(w, from, s[|s| - 1])
         case None => Broken(TypeMismatch)
         case Some(v) => Push(w, s[..|s| - 1], CastTo(w, to, v), e))
    case CompareEqual =>
      var a, b := LowHalf(arg) + w.base, HighHalf(arg) + w.base;
      if 0 <= a < |s| && 0 <= b < |s| then Push(w, s, Bool(SameValue(w, s[a], s[b])), e) else Broken(TypeMismatch)
    case CompareLessEq =>
      var a, b := FloatAt(w, s, LowHalf(arg) + w.base), FloatAt(w, s, HighHalf(arg) + w.base);
      if a.Some? && b.Some? then Push(w, s, Bool(w.lessEq(a.value, b.value)), e) else Broken(TypeMismatch)
    case AddToSlot =>
      var a, b := FloatAt(w, s, LowHalf(arg) + w.base), FloatAt(w, s, HighHalf(arg) + w.base);
      if a.Some? && b.Some? then Fine(s[LowHalf(arg) + w.base := Float(w.add(a.value, b.value))], e) else Broken(TypeMismatch)
    case MulIntoSlot =>
      var a, b := FloatAt(w, s, LowHalf(arg) + w.base), FloatAt(w, s, HighHalf(arg) + w.base);
      if a.Some? && b.Some? then Fine(s[LowHalf(arg) + w.base := Float(w.mul(a.value, b.value))], e) else Broken(TypeMismatch)
    case Chance => Push(w, s, Float(w.chance(arg, e)), e)
    case CheckWeight =>
      if s == [] then Broken(StackEmpty)
      else
        var x := AsFloat(w, s[|s| - 1]);
        if x.None? then Broken(TypeMismatch) else if w.lessEq(0.0, x.value) then Fine(s, e) else Broken(BadWeight)
    case NoMatch => Broken(NoMatchingCase)
    case Return =>
      if s == [] then Fine(s, e.(result := Invalid)) else Fine(s[..|s| - 1], e.(result := s[|s| - 1]))
    case Call(sig) => CallStep(w, sig, arg, s, e)
  }

  predicate IsCallbackOp(op: Op) { op.Iterator? || op.Pipeline? }

  predicate IsBranch(op: Op) {
    op.Jump? || op.CondJump? || op.CondJumpGet? || op.CondJumpTrueGet? || op.AndJump? || op.OrJump? || op.JumpInvalid?
  }

  predicate Steers(op: Op) { IsBranch(op) || op.ScopeGuard? }

  /** What a branch does besides moving to its target. */
  datatype BranchResult = Go(taken: bool, stack: seq<Value>, env: Env) | Halt(error: Error)

  function GoWith(taken: bool, x: Effect): BranchResult {
    match x
    case Broken(err) => Halt(err)
    case Fine(s, e) => Go(taken, s, e)
  }

  function BranchStep(w: World, c: Command, s: seq<Value>, e: Env): BranchResult
    requires Steers(c.op)
  {
    match c.op
    case Jump => Go(true, s, e)
    case CondJump =>
      (match PopBool(w, s)
       case PopFailed(err) => Halt(err)
       case Popped(b, r) => Go(!b, r, e))
    case CondJumpGet =>
      (match PopBool(w, s)
       case PopFailed(err) => Halt(err)
       case Popped(b, _) => Go(!b, s, e))
    case CondJumpTrueGet =>
      (match PopBool(w, s)
       case PopFailed(err) => Halt(err)
       case Popped(b, _) => Go(b, s, e))
    case AndJump =>
      (match PopBool(w, s)
       case PopFailed(err) => Halt(err)
       case Popped(b2, r2) =>
         match PopBool(w, r2)
         case PopFailed(err) => Halt(err)
         case Popped(b1, r) => GoWith(!(b1 && b2), Push(w, r, Bool(b1 && b2), e)))
    case OrJump =>
      (match PopBool(w, s)
       case PopFailed(err) => Halt(err)
       case Popped(b2, r2) =>
         match PopBool(w, r2)
         case PopFailed(err) => Halt(err)
         case Popped(b1, r) => GoWith(b1 || b2, Push(w, r, Bool(b1 || b2), e)))
    case JumpInvalid =>
      if s == [] || s[|s| - 1] == Invalid then Go(true, if s == [] then s else s[..|s| - 1], e) else Go(false, s, e)
    case ScopeGuard =>
      if s == [] then Halt(TypeMismatch)
      else if w.valid(s[|s| - 1]) then Go(false, s, e)
      else Go(true, s[..|s| - 1] + [DefaultOf(HighHalf(c.arg))], e)
  }

  function TargetOf(c: Command): int { if c.op.ScopeGuard? then LowHalf(c.arg) else c.arg }

  function EffectOf(w: World, c: Command, s: seq<Value>, e: Env): Effect
    requires !IsCallbackOp(c.op) && !Steers(c.op)
  {
    match c.op
    case Erase => Fine(EraseAt(s, c.arg + w.base), e)
    case EraseRange => Fine(EraseRangeAt(s, LowHalf(c.arg) + w.base, HighHalf(c.arg)), e)
    case PushContext => Push(w, s, Context, e)
    case Read(kind) =>
      (match w.read(kind, c.arg, e)
       case ReadFailed(err) => Broken(err)
       case Got(v) =>
         var declared := w.slotType(kind, c.arg);
         if declared.Some? && declared.value != TypeOf(v) then Broken(TypeMismatch) else Push(w, s, v, e))
    case Basic(p) => PrimStep(w, p, c.arg, s, e)
    case PipelineData => Fine(s, e)
  }

  datatype StepResult = Next(pc: int, stack: seq<Value>, env: Env) | Stop(error: Error)

  /** One command other than an iterator or a list pipeline. */
  function Step(w: World, pc: nat, c: Command, s: seq<Value>, e: Env): StepResult
    requires !IsCallbackOp(c.op)
  {
    if Steers(c.op) then
      match BranchStep(w, c, s, e)
      case Halt(err) => Stop(err)
      case Go(taken, s', e') => Next(if taken then TargetOf(c) else pc + 1, s', e')
    else
      match EffectOf(w, c, s, e)
      case Broken(err) => Stop(err)
      case Fine(s', e') => Next(pc + 1, s', e')
  }

  // --- running ---------------------------------------------------------------------

  datatype Code = Code(cmds: seq<Command>, keep: seq<bool>, data: seq<bool>, model: seq<seq<Ty>>, watch: bool)

  predicate Shaped(c: Code) {
    |c.keep| == |c.data| == |c.model| == |c.cmds|
  }

  function Plain(cmds: seq<Command>): (c: Code)
    ensures Shaped(c)
  {
    Code(cmds, seq(|cmds|, _ => true), seq(|cmds|, _ => false), seq(|cmds|, _ => []), false)
  }

  /** The stack above the frame base is exactly what the compiler predicted for this command. */
  predicate OnModel(w: World, c: Code, pc: nat, s: seq<Value>)
    requires Shaped(c) && pc < |c.cmds|
  {
    var m := c.model[pc];
    var cmd := c.cmds[pc];
    && !c.data[pc]
    && |s| == w.base + |m|
    && TagsMatch(s[w.base..], m)
    && (cmd.op.Erase? ==> 0 <= cmd.arg < |m|)
    && (cmd.op.EraseRange? ==> 0 < HighHalf(cmd.arg) && 0 <= LowHalf(cmd.arg) && LowHalf(cmd.arg) + HighHalf(cmd.arg) <= |m|)
  }

  datatype Section = Section(start: int, end: int)

  function DataArg(cmds: seq<Command>, i: int): int {
    if 0 <= i < |cmds| then cmds[i].arg else 0
  }

  /** Where the k-th section of an iterator at `pc` starts: behind the last present section before it. */
  function SectionStart(cmds: seq<Command>, pc: int, n: nat, k: nat): int
    decreases k
  {
    if k == 0 then pc + 1 + n
    else
      var end := DataArg(cmds, pc + k);
      if end == 0 then SectionStart(cmds, pc, n, k - 1) else end
  }

  /** A callback section of the command at `pc`; none when it is absent. */
  function SectionOf(cmds: seq<Command>, pc: nat, k: nat): Option<Section>
    requires pc < |cmds|
  {
    match cmds[pc].op
    case Iterator(_, n) =>
      if k >= n || DataArg(cmds, pc + 1 + k) == 0 then None
      else Some(Section(SectionStart(cmds, pc, n, k), DataArg(cmds, pc + 1 + k)))
    case Pipeline =>
      var ranges, tail := DataArg(cmds, pc + 1), DataArg(cmds, pc + 2);
      if k == 0 && LowHalf(ranges) != 0 then Some(Section(pc + LowHalf(ranges), pc + HighHalf(ranges)))
      else if k == 1 && LowHalf(tail) != 0 then Some(Section(pc + LowHalf(tail), pc + HighHalf(tail)))
      else None
    case _ => None
  }

  /** The command after an iterator or a list pipeline and all of its sections. */
  function ResumeOf(cmds: seq<Command>, pc: nat): int
    requires pc < |cmds|
  {
    match cmds[pc].op
    case Iterator(_, n) => SectionStart(cmds, pc, n, n)
    case Pipeline => pc + HighHalf(DataArg(cmds, pc + 2))
    case _ => pc + 1
  }

  /** The part of a pipeline's data that is not a command index. */
  function AuxOf(cmds: seq<Command>, pc: nat): int
    requires pc < |cmds|
  {
    if cmds[pc].op.Pipeline? then DataArg(cmds, pc + 3) else 0
  }

  datatype Outcome =
    | Done(stack: seq<Value>, env: Env)
    | Failed(error: Error)
    | OffModel
    | CallLimit

  /**
    Executes the commands from `pc` until the index leaves the range below `hi`.
    Compiled jumps only go forward; any other jump counts as off the model.
  */
  function Run(w: World, c: Code, pc: nat, hi: nat, s: seq<Value>, e: Env): Outcome
    requires Shaped(c)
    decreases hi - pc, w.limit + 1
  {
    if pc >= hi then Done(s, e)
    else if pc >= |c.cmds| then OffModel
    else if !c.keep[pc] then Run(w, c, pc + 1, hi, s, e)
    else if c.watch && !OnModel(w, c, pc, s) then OffModel
    else if IsCallbackOp(c.cmds[pc].op) then
      var resume := ResumeOf(c.cmds, pc);
      if resume <= pc then OffModel
      else match Iterate(w, c, pc, hi, [], s, e, w.limit)
        case Done(s', e') => Run(w, c, resume, hi, s', e')
        case other => other
    else match Step(w, pc, c.cmds[pc], s, e)
      case Stop(err) => Failed(err)
      case Next(t, s', e') => if t <= pc then OffModel else Run(w, c, t, hi, s', e')
  }

  /** The native part of an iterator or a list pipeline, calling back into its sections. */
  function Iterate(w: World, c: Code, pc: nat, hi: nat, replies: seq<Value>, s: seq<Value>, e: Env, left: nat): Outcome
    requires Shaped(c) && pc < |c.cmds| && pc < hi && left <= w.limit
    decreases hi - pc, left
  {
    var cmd := c.cmds[pc];
    match w.act(cmd.op, cmd.arg, AuxOf(c.cmds, pc), replies, s, e)
    case Abort(err) => Failed(err)
    case Finish(s', e') => Done(s', e')
    case Callback(k, input, reply) =>
      match SectionOf(c.cmds, pc, k)
      case None => Failed(NoSuchSection)
      case Some(Section(from, to)) =>
        if left == 0 then CallLimit
        else if !(pc < from <= to <= hi) then OffModel
        else if input.Some? && |s| >= w.capacity then Failed(StackOverflow)
        else match Run(w, c, from, to, if input.Some? then s + [input.value] else s, e)
          case Done(s', e') =>
            if reply.NoReply? then Iterate(w, c, pc, hi, replies + [Invalid], s', e', left - 1)
            else if s' == [] then Failed(StackEmpty)
            else
              var v := s'[|s'| - 1];
              if w.safe && reply.TypedReply? && TypeOf(v) != reply.ty then Failed(TypeMismatch)
              else Iterate(w, c, pc, hi, replies + [v], s'[..|s'| - 1], e', left - 1)
          case other => other
  }

  /** A run that stayed on the compiler's model and did not exhaust the stack tells how the other run ends. */
  predicate Refines(a: Outcome, b: Outcome) {
    a.Done? || (a.Failed? && a.error != StackOverflow) ==> b == a
  }
}
