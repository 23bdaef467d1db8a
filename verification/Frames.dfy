/**
  Script-in-script calls. A call copies nothing: the callee runs in the same context with
  four base offsets moved up, its list frame appended to the shared vector of lists, lists
  passed in and out by swapping, and everything put back afterwards, also when it fails.

  Scripts are trees: a script contains the scripts it executes, as they were when it was
  compiled. `heights` is the compile-time stack size before every item.
*/
module Frames {
  import opened Machine

  datatype LocalOp =
    | PushConst(v: Value)
    | PushThis(slot: nat)
    | PushArg(slot: nat)
    | PushSaved(slot: nat)
    | SetArg(slot: nat)
    | SaveValue(slot: nat)
    | EraseLocal(slot: nat)
    | SetReturn
    | AddTo(list: nat)
    | EditList(list: nat, id: nat)               // remove_from, filter, map: whatever they make of the list
    | Native(id: nat, pops: nat, pushes: bool)

  datatype Binding = Binding(subSlot: nat, callerIndex: nat)

  /** After the call, the callee's argument goes back into the caller's saved value or argument. */
  datatype Write = Write(subSlot: nat, intoSaved: bool, callerIndex: nat)

  datatype Site = Site(sub: Script, bindings: seq<Binding>, writes: seq<Write>)

  datatype Item =
    | Local(op: LocalOp)
    | Goto(target: nat)
    | Unless(target: nat)
    | Execute(site: Site)

  datatype Script = Script(args: nat, saved: nat, lists: nat, gives: bool, body: seq<Item>, heights: seq<nat>,
                           maxStack: nat, maxSaved: nat, maxLists: nat, maxArgs: nat)

  datatype Ctx = Ctx(stack: seq<Value>, args: seq<Value>, saved: seq<Value>, lists: seq<seq<Value>>,
                     frame: nat, argBase: nat, savedBase: nat, listBase: nat, ret: Value, depth: nat)

  /** How large the operand stack is, and how many lists the vector was reserved for. */
  datatype Limits = Limits(stack: nat, lists: nat)

  datatype Fault =
    | StackFull | ArgsFull | SavedFull | ListsMissing | ListsMoved     // capacity
    | TooDeep(refused: Script)
    | BadOperand
    | NativeFault(id: nat)

  const MAX_DEPTH: nat := 128

  /** Native functions, list edits and truth of values, unknown to the machine. */
  datatype Natives = Natives(call: (nat, seq<Value>) -> Option<Value>, edit: (nat, seq<Value>) -> seq<Value>, holds: Value -> bool)

  datatype Ran = Ended(ctx: Ctx) | Faulted(fault: Fault, ctx: Ctx)

  // --- single operations --------------------------------------------------------------------

  function PushValue(l: Limits, c: Ctx, v: Value): Ran {
    if |c.stack| >= l.stack then Faulted(StackFull, c) else Ended(c.(stack := c.stack + [v]))
  }

  function LocalStep(l: Limits, w: Natives, op: LocalOp, c: Ctx): Ran {
    var s := c.stack;
    match op
    case PushConst(v) => PushValue(l, c, v)
    case PushThis(k) => if c.frame + k < |s| then PushValue(l, c, s[c.frame + k]) else Faulted(BadOperand, c)
    case PushArg(k) => if c.argBase + k < |c.args| then PushValue(l, c, c.args[c.argBase + k]) else Faulted(BadOperand, c)
    case PushSaved(k) => if c.savedBase + k < |c.saved| then PushValue(l, c, c.saved[c.savedBase + k]) else Faulted(BadOperand, c)
    case SetArg(k) =>
      if s != [] && c.argBase + k < |c.args| then Ended(c.(args := c.args[c.argBase + k := s[|s| - 1]], stack := s[..|s| - 1]))
      else Faulted(BadOperand, c)
    case SaveValue(k) =>
      if s != [] && c.savedBase + k < |c.saved| then Ended(c.(saved := c.saved[c.savedBase + k := s[|s| - 1]], stack := s[..|s| - 1]))
      else Faulted(BadOperand, c)
    case EraseLocal(k) => if c.frame + k < |s| then Ended(c.(stack := s[..c.frame + k] + s[c.frame + k + 1..])) else Ended(c)
    case SetReturn => if s != [] then Ended(c.(ret := s[|s| - 1], stack := s[..|s| - 1])) else Faulted(BadOperand, c)
    case AddTo(k) =>
      if s != [] && c.listBase + k < |c.lists| then
        Ended(c.(lists := c.lists[c.listBase + k := c.lists[c.listBase + k] + [s[|s| - 1]]], stack := s[..|s| - 1]))
      else Faulted(BadOperand, c)
    case EditList(k, id) =>
      if c.listBase + k < |c.lists| then Ended(c.(lists := c.lists[c.listBase + k := w.edit(id, c.lists[c.listBase + k])])) else Faulted(BadOperand, c)
    case Native(id, n, pushes) =>
      if |s| < n then Faulted(BadOperand, c)
      else match w.call(id, s[|s| - n..])
        case None => Faulted(NativeFault(id), c)
        case Some(v) => var d := c.(stack := s[..|s| - n]); if pushes then PushValue(l, d, v) else Ended(d)
  }

  // --- the opcodes around a call ---------------------------------------------------------------

  datatype FrameOp = Enter(count: nat) | Swap(fromTop: nat, callerIndex: nat) | WriteBack(write: Write) | Leave(count: nat)

  function Empties(n: nat): (r: seq<seq<Value>>)
    ensures |r| == n
  {
    seq(n, _ => [])
  }

  /** Appends fresh lists; past the reserved size the vector would move. */
  function EnterLists(l: Limits, c: Ctx, n: nat): Ran {
    if |c.lists| + n > l.lists then Faulted(ListsMoved, c) else Ended(c.(lists := c.lists + Empties(n)))
  }

  function LeaveLists(c: Ctx, n: nat): Ctx {
    if n <= |c.lists| then c.(lists := c.lists[..|c.lists| - n]) else c
  }

  function SwapAt(lists: seq<seq<Value>>, i: int, j: int): (r: seq<seq<Value>>)
    ensures |r| == |lists|
  {
    if 0 <= i < |lists| && 0 <= j < |lists| then lists[i := lists[j]][j := lists[i]] else lists
  }

  function SwapList(c: Ctx, fromTop: nat, callerIndex: nat): Ctx {
    c.(lists := SwapAt(c.lists, |c.lists| - fromTop, callerIndex + c.listBase))
  }

  /** Copies the returned callee's argument, still lying above the caller's, into the caller's slot. */
  function WriteSlot(caller: Script, c: Ctx, x: Write): Ctx {
    var from := c.argBase + caller.args + x.subSlot;
    if from >= |c.args| then c
    else if x.intoSaved then
      (if c.savedBase + x.callerIndex < |c.saved| then c.(saved := c.saved[c.savedBase + x.callerIndex := c.args[from]]) else c)
    else
      (if c.argBase + x.callerIndex < |c.args| then c.(args := c.args[c.argBase + x.callerIndex := c.args[from]]) else c)
  }

  function SwapOps(site: Site): seq<FrameOp> {
    seq(|site.bindings|, i requires 0 <= i < |site.bindings| =>
      Swap(if site.bindings[i].subSlot <= site.sub.lists then site.sub.lists - site.bindings[i].subSlot else 0, site.bindings[i].callerIndex))
  }

  function WriteOps(site: Site): seq<FrameOp> {
    seq(|site.writes|, i requires 0 <= i < |site.writes| => WriteBack(site.writes[i]))
  }

  /** What is emitted before and behind the call itself. */
  function Before(site: Site): seq<FrameOp> { (if site.sub.lists > 0 then [Enter(site.sub.lists)] else []) + SwapOps(site) }

  function Behind(site: Site): seq<FrameOp> { WriteOps(site) + SwapOps(site) + (if site.sub.lists > 0 then [Leave(site.sub.lists)] else []) }

  function RunOps(l: Limits, caller: Script, ops: seq<FrameOp>, c: Ctx): Ran
    decreases |ops|
  {
    if ops == [] then Ended(c)
    else match ops[0]
      case Enter(n) => (match EnterLists(l, c, n)
                        case Faulted(f, d) => Faulted(f, d)
                        case Ended(d) => RunOps(l, caller, ops[1..], d))
      case Swap(t, i) => RunOps(l, caller, ops[1..], SwapList(c, t, i))
      case WriteBack(x) => RunOps(l, caller, ops[1..], WriteSlot(caller, c, x))
      case Leave(n) => RunOps(l, caller, ops[1..], LeaveLists(c, n))
  }

  /** The catch handler: it looks at the commands behind the call, skips write-backs, swaps lists back and drops the list frame. */
  function Unwind(ops: seq<FrameOp>, c: Ctx): Ctx
    decreases |ops|
  {
    if ops == [] then c
    else match ops[0]
      case WriteBack(_) => Unwind(ops[1..], c)
      case Swap(t, i) => Unwind(ops[1..], SwapList(c, t, i))
      case Leave(n) => LeaveLists(c, n)
      case Enter(_) => c
  }

  // --- the call -----------------------------------------------------------------------------------

  /** The values of `from` in place of those of `s` from `at` on. */
  function Overlay(s: seq<Value>, at: nat, from: seq<Value>): (r: seq<Value>)
    requires at + |from| <= |s|
    ensures |r| == |s|
  {
    s[..at] + from + s[at + |from|..]
  }

  function Blanks(n: nat): (r: seq<Value>)
    ensures |r| == n
  {
    seq(n, _ => Invalid)
  }

  /** Enters the callee's frame: arguments move off the stack, bases move up, saved values start blank. */
  function EnterFrame(caller: Script, sub: Script, c: Ctx): Ran {
    var argBase, savedBase := c.argBase + caller.args, c.savedBase + caller.saved;
    if argBase + sub.args > |c.args| then Faulted(ArgsFull, c)
    else if savedBase + sub.saved > |c.saved| then Faulted(SavedFull, c)
    else if |c.stack| < sub.args || |c.lists| < sub.lists then Faulted(BadOperand, c)
    else
      var base := |c.stack| - sub.args;
      Ended(c.(args := Overlay(c.args, argBase, c.stack[base..]), stack := c.stack[..base],
               frame := base, argBase := argBase, savedBase := savedBase, listBase := |c.lists| - sub.lists,
               saved := Overlay(c.saved, savedBase, Blanks(sub.saved)), depth := c.depth + 1))
  }

  /** The caller's frame again: bases, return value and depth of `c`, what the callee left elsewhere. */
  function BackTo(c: Ctx, d: Ctx): Ctx {
    d.(frame := c.frame, argBase := c.argBase, savedBase := c.savedBase, listBase := c.listBase, ret := c.ret, depth := c.depth)
  }

  function CutTo(d: Ctx, size: nat): Ctx { if size <= |d.stack| then d.(stack := d.stack[..size]) else d }

  /** The checks of `process`, made again for every frame. */
  function Checked(l: Limits, s: Script, c: Ctx): Option<Fault> {
    if c.frame + s.maxStack > l.stack then Some(StackFull)
    else if c.savedBase + s.maxSaved > |c.saved| then Some(SavedFull)
    else if s.lists > 0 && c.listBase + s.lists > |c.lists| then Some(ListsMissing)
    else None
  }

  function Process(l: Limits, w: Natives, s: Script, c: Ctx): Ran
    decreases s, |s.body| + 1
  {
    match Checked(l, s, c)
    case Some(f) => Faulted(f, c)
    case None => RunItems(l, w, s, 0, c)
  }

  function RunItems(l: Limits, w: Natives, s: Script, pc: nat, c: Ctx): Ran
    decreases s, |s.body| - pc
  {
    if pc >= |s.body| then Ended(c)
    else match s.body[pc]
      case Local(op) =>
        (match LocalStep(l, w, op, c)
         case Ended(d) => RunItems(l, w, s, pc + 1, d)
         case other => other)
      case Goto(t) => if t <= pc then Faulted(BadOperand, c) else RunItems(l, w, s, t, c)
      case Unless(t) =>
        if c.stack == [] || t <= pc then Faulted(BadOperand, c)
        else
          var d := c.(stack := c.stack[..|c.stack| - 1]);
          RunItems(l, w, s, if w.holds(c.stack[|c.stack| - 1]) then pc + 1 else t, d)
      case Execute(site) =>
        (match CallSite(l, w, s, site, c)
         case Ended(d) => RunItems(l, w, s, pc + 1, d)
         case other => other)
  }

  /** The callee's run, from the caller's context with the lists already swapped in. */
  function Inner(l: Limits, w: Natives, caller: Script, site: Site, c: Ctx): Ran
    decreases site.sub, |site.sub.body| + 2
  {
    match EnterFrame(caller, site.sub, c)
    case Faulted(f, d) => Faulted(f, d)
    case Ended(d) => Process(l, w, site.sub, d)
  }

  /** The whole emitted sequence: list frame, swaps, call, write-backs, swaps, list frame. */
  function CallSite(l: Limits, w: Natives, caller: Script, site: Site, c: Ctx): Ran
    decreases site.sub, |site.sub.body| + 3
  {
    match RunOps(l, caller, Before(site), c)
    case Faulted(f, d) => Faulted(f, d)
    case Ended(c1) => if c1.depth >= MAX_DEPTH then Faulted(TooDeep(site.sub), c1) else AfterCall(l, caller, site, c1, Inner(l, w, caller, site, c1))
  }

  /** Behind the callee's run: the frame put back and the emitted opcodes run, or the handler's unwinding. */
  function AfterCall(l: Limits, caller: Script, site: Site, c: Ctx, inner: Ran): Ran {
    var base := if |c.stack| >= site.sub.args then |c.stack| - site.sub.args else 0;
    match inner
    case Faulted(f, d) => Faulted(f, Unwind(Behind(site), CutTo(BackTo(c, d), base)))
    case Ended(d) =>
      var back := CutTo(BackTo(c, d), base);
      if !site.sub.gives then RunOps(l, caller, Behind(site), back)
      else match PushValue(l, back, d.ret)
        case Faulted(f, _) => Faulted(f, Unwind(Behind(site), back))
        case Ended(e) => RunOps(l, caller, Behind(site), e)
  }
}
