/**
  The mutable context, and the call opcodes as they change it: bases, the fixed buffers
  and the vector of lists are fields, arguments are copied from the operand stack into the
  argument buffer, and the catch handler unwinds by looking at the commands behind the call.
  Every method computes exactly what Frames says of the context's value.
*/
module Contexts {
  import opened Machine
  import opened Frames

  class Context {
    const stack: array<Value>
    const args: array<Value>
    const saved: array<Value>
    var size: nat
    var lists: seq<seq<Value>>
    var frame: nat
    var argBase: nat
    var savedBase: nat
    var listBase: nat
    var ret: Value
    var depth: nat
    const reserved: nat

    /** A context for scripts whose peaks were reported by the compiler. */
    constructor (stackCapacity: nat, savedCapacity: nat, argCapacity: nat, listCount: nat, reserved: nat)
      requires listCount <= reserved
      ensures Valid() && fresh(stack) && fresh(args) && fresh(saved)
      ensures stack.Length == stackCapacity && saved.Length == savedCapacity && args.Length == argCapacity && this.reserved == reserved
      ensures size == 0 && lists == Empties(listCount) && frame == argBase == savedBase == listBase == depth == 0 && ret == Invalid
    {
      stack := new Value[stackCapacity](_ => Invalid);
      saved := new Value[savedCapacity](_ => Invalid);
      args := new Value[argCapacity](_ => Invalid);
      size, lists, frame, argBase, savedBase, listBase, ret, depth := 0, seq(listCount, _ => []), 0, 0, 0, 0, Invalid, 0;
      this.reserved := reserved;
    }

    ghost predicate Valid()
      reads this
    {
      size <= stack.Length && stack != args && stack != saved && args != saved
    }

    ghost function View(): Ctx
      reads this, stack, args, saved
      requires Valid()
    {
      Ctx(stack[..size], args[..], saved[..], lists, frame, argBase, savedBase, listBase, ret, depth)
    }

    ghost function Room(): Limits
      reads this
    {
      Limits(stack.Length, reserved)
    }

    // --- list frames and bindings ------------------------------------------------------------

    method ListFrameEnter(n: nat) returns (fault: Option<Fault>)
      requires Valid()
      modifies this`lists
      ensures Valid() && EndOf(fault, View()) == EnterLists(Room(), old(View()), n)
    {
      if |lists| + n > reserved { return Some(ListsMoved); }
      lists := lists + seq(n, _ => []);
      fault := None;
    }

    method ListFrameExit(n: nat)
      requires Valid()
      modifies this`lists
      ensures Valid() && View() == LeaveLists(old(View()), n)
    {
      if n <= |lists| { lists := lists[..|lists| - n]; }
    }

    method SwapBoundList(fromTop: nat, callerIndex: nat)
      requires Valid()
      modifies this`lists
      ensures Valid() && View() == SwapList(old(View()), fromTop, callerIndex)
    {
      var i, j := |lists| - fromTop, callerIndex + listBase;
      if 0 <= i < |lists| && j < |lists| {
        var held := lists[i];
        lists := lists[i := lists[j]];
        lists := lists[j := held];
      }
    }

    method WriteBackArg(caller: Script, x: Write)
      requires Valid()
      modifies args, saved
      ensures Valid() && View() == WriteSlot(caller, old(View()), x)
    {
      var from := argBase + caller.args + x.subSlot;
      if from < args.Length {
        if x.intoSaved {
          if savedBase + x.callerIndex < saved.Length { saved[savedBase + x.callerIndex] := args[from]; }
        } else {
          if argBase + x.callerIndex < args.Length { args[argBase + x.callerIndex] := args[from]; }
        }
      }
    }

    /** Runs the opcodes emitted around a call, in order. */
    method RunFrameOps(caller: Script, ops: seq<FrameOp>) returns (fault: Option<Fault>)
      requires Valid()
      modifies this`lists, args, saved
      ensures Valid() && EndOf(fault, View()) == RunOps(Room(), caller, ops, old(View()))
    {
      fault := None;
      var k := 0;
      assert ops[0..] == ops;
      while k < |ops|
        invariant k <= |ops| && Valid() && fault == None
        invariant RunOps(Room(), caller, ops[k..], View()) == RunOps(Room(), caller, ops, old(View()))
        decreases |ops| - k
      {
        assert ops[k..][1..] == ops[k + 1..];
        match ops[k] {
          case Enter(n) =>
            fault := ListFrameEnter(n);
            if fault.Some? { return; }
          case Swap(t, i) => SwapBoundList(t, i);
          case WriteBack(x) => WriteBackArg(caller, x);
          case Leave(n) => ListFrameExit(n);
        }
        k := k + 1;
      }
    }

    /** The scan of the catch handler. */
    method UnwindOps(ops: seq<FrameOp>)
      requires Valid()
      modifies this`lists
      ensures Valid() && View() == Unwind(ops, old(View()))
    {
      var k := 0;
      assert ops[0..] == ops;
      while k < |ops|
        invariant k <= |ops| && Valid()
        invariant Unwind(ops[k..], View()) == Unwind(ops, old(View()))
        decreases |ops| - k
      {
        assert ops[k..][1..] == ops[k + 1..];
        match ops[k] {
          case WriteBack(_) =>
          case Swap(t, i) => SwapBoundList(t, i);
          case Leave(n) =>
            ListFrameExit(n);
            return;
          case Enter(_) => return;
        }
        k := k + 1;
      }
    }

    // --- a frame's own operations ----------------------------------------------------------------

    method Push(v: Value) returns (fault: Option<Fault>)
      requires Valid()
      modifies this`size, stack
      ensures Valid() && EndOf(fault, View()) == PushValue(Room(), old(View()), v)
    {
      if size >= stack.Length { return Some(StackFull); }
      stack[size] := v;
      size := size + 1;
      fault := None;
    }

    method Pop() returns (v: Value)
      requires Valid() && size > 0
      modifies this`size
      ensures Valid() && v == old(View()).stack[old(size) - 1] && View() == old(View()).(stack := old(View()).stack[..old(size) - 1])
    {
      size := size - 1;
      v := stack[size];
    }

    /** Shifts the elements above a slot down by one. */
    method EraseAt(slot: nat)
      requires Valid() && slot < size
      modifies this`size, stack
      ensures Valid() && View() == old(View()).(stack := old(View()).stack[..slot] + old(View()).stack[slot + 1..])
    {
      var k := slot;
      while k + 1 < size
        invariant slot <= k < size == old(size) && Valid()
        invariant forall j :: 0 <= j < slot ==> stack[j] == old(stack[j])
        invariant forall j :: slot <= j < k ==> stack[j] == old(stack[j + 1])
        invariant forall j :: k < j < size ==> stack[j] == old(stack[j])
      {
        stack[k] := stack[k + 1];
        k := k + 1;
      }
      size := size - 1;
    }

    /** Copies of values of this frame, pushed. */
    method LocalPush(op: LocalOp) returns (fault: Option<Fault>)
      requires Valid() && (op.PushConst? || op.PushThis? || op.PushArg? || op.PushSaved?)
      modifies this`size, stack
      ensures Valid() && forall w :: EndOf(fault, View()) == LocalStep(Room(), w, op, old(View()))
    {
      fault := Some(BadOperand);
      match op
      case PushConst(v) => fault := Push(v);
      case PushThis(k) => if frame + k < size { fault := Push(stack[frame + k]); }
      case PushArg(k) => if argBase + k < args.Length { fault := Push(args[argBase + k]); }
      case PushSaved(k) => if savedBase + k < saved.Length { fault := Push(saved[savedBase + k]); }
    }

    /** The value on top, moved into a slot of this frame. */
    method LocalStore(op: LocalOp) returns (fault: Option<Fault>)
      requires Valid() && (op.SetArg? || op.SaveValue? || op.SetReturn? || op.AddTo?)
      modifies this`size, this`lists, this`ret, args, saved
      ensures Valid() && forall w :: EndOf(fault, View()) == LocalStep(Room(), w, op, old(View()))
    {
      fault := Some(BadOperand);
      if size == 0 { return; }
      ghost var c := View();
      match op
      case SetArg(k) =>
        if argBase + k < args.Length {
          var v := Pop();
          args[argBase + k] := v;
          assert args[..] == c.args[c.argBase + k := v];
          fault := None;
        }
      case SaveValue(k) =>
        if savedBase + k < saved.Length {
          var v := Pop();
          saved[savedBase + k] := v;
          assert saved[..] == c.saved[c.savedBase + k := v];
          fault := None;
        }
      case SetReturn =>
        ret := Pop();
        fault := None;
      case AddTo(k) =>
        if listBase + k < |lists| {
          var v := Pop();
          lists := lists[listBase + k := lists[listBase + k] + [v]];
          fault := None;
        }
    }

    method LocalNative(w: Natives, op: LocalOp) returns (fault: Option<Fault>)
      requires Valid() && op.Native?
      modifies this`size, stack
      ensures Valid() && EndOf(fault, View()) == LocalStep(Room(), w, op, old(View()))
    {
      if size < op.pops { return Some(BadOperand); }
      var v := w.call(op.id, stack[size - op.pops..size]);
      assert stack[size - op.pops..size] == View().stack[size - op.pops..];
      if v == None { return Some(NativeFault(op.id)); }
      ghost var c := View();
      size := size - op.pops;
      assert View() == c.(stack := c.stack[..|c.stack| - op.pops]);
      fault := None;
      if op.pushes { fault := Push(v.value); }
    }

    method Local(w: Natives, op: LocalOp) returns (fault: Option<Fault>)
      requires Valid()
      modifies this`size, this`lists, this`ret, stack, args, saved
      ensures Valid() && EndOf(fault, View()) == LocalStep(Room(), w, op, old(View()))
    {
      match op
      case Native(_, _, _) => fault := LocalNative(w, op);
      case EraseLocal(k) =>
        if frame + k < size { EraseAt(frame + k); }
        fault := None;
      case EditList(k, id) =>
        if listBase + k >= |lists| { return Some(BadOperand); }
        lists := lists[listBase + k := w.edit(id, lists[listBase + k])];
        fault := None;
      case SetArg(_) => fault := LocalStore(op);
      case SaveValue(_) => fault := LocalStore(op);
      case SetReturn => fault := LocalStore(op);
      case AddTo(_) => fault := LocalStore(op);
      case _ => fault := LocalPush(op);
    }

    // --- calls ----------------------------------------------------------------------------------------

    method CopyArgs(from: nat, at: nat, n: nat)
      requires Valid() && from + n <= size && at + n <= args.Length
      modifies args
      ensures Valid() && View() == old(View()).(args := Overlay(old(View()).args, at, old(View()).stack[from..from + n]))
    {
      ghost var c := View();
      var k := 0;
      while k < n
        invariant k <= n && Valid()
        invariant forall j :: at <= j < at + k ==> args[j] == stack[from + (j - at)]
        invariant forall j :: 0 <= j < args.Length && (j < at || at + k <= j) ==> args[j] == c.args[j]
      {
        args[at + k] := stack[from + k];
        k := k + 1;
      }
      assert args[..] == Overlay(c.args, at, c.stack[from..from + n]);
    }

    /** The callee's saved slots start untyped, so a read before a write is caught. */
    method BlankSaved(at: nat, n: nat)
      requires Valid() && at + n <= saved.Length
      modifies saved
      ensures Valid() && View() == old(View()).(saved := Overlay(old(View()).saved, at, Blanks(n)))
    {
      ghost var c := View();
      var k := 0;
      while k < n
        invariant k <= n && Valid() && saved[..] == Overlay(c.saved, at, Blanks(k))
      {
        saved[at + k] := Invalid;
        assert Blanks(k + 1) == Blanks(k) + [Invalid];
        k := k + 1;
      }
    }

    /** Moves the arguments into the callee's argument frame and the bases up. */
    method EnterCallee(caller: Script, sub: Script) returns (fault: Option<Fault>)
      requires Valid()
      modifies this, args, saved
      ensures Valid() && EndOf(fault, View()) == EnterFrame(caller, sub, old(View()))
    {
      hide Overlay, Blanks;
      var newArgs, newSaved := argBase + caller.args, savedBase + caller.saved;
      if newArgs + sub.args > args.Length { return Some(ArgsFull); }
      if newSaved + sub.saved > saved.Length { return Some(SavedFull); }
      if size < sub.args || |lists| < sub.lists { return Some(BadOperand); }
      var base := size - sub.args;
      ghost var c := View();
      assert c.stack[base..base + sub.args] == c.stack[base..];
      CopyArgs(base, newArgs, sub.args);
      BlankSaved(newSaved, sub.saved);
      size, frame, argBase, savedBase, listBase, depth := base, base, newArgs, newSaved, |lists| - sub.lists, depth + 1;
      assert stack[..base] == c.stack[..base];
      fault := None;
    }

    /** The caller's frame again; what the callee left elsewhere stays. */
    method Restore(ghost c: Ctx, base: nat, f: nat, a: nat, v: nat, t: nat, r: Value, d: nat)
      requires Valid() && f == c.frame && a == c.argBase && v == c.savedBase && t == c.listBase && r == c.ret && d == c.depth
      modifies this`size, this`frame, this`argBase, this`savedBase, this`listBase, this`ret, this`depth
      ensures Valid() && View() == CutTo(BackTo(c, old(View())), base)
    {
      ghost var now := View();
      frame, argBase, savedBase, listBase, ret, depth := f, a, v, t, r, d;
      if base <= size {
        size := base;
        assert stack[..base] == now.stack[..base];
      }
    }

    /** Behind the callee's run: the result, then the emitted opcodes; or the unwinding of a fault. */
    method FinishCall(caller: Script, site: Site, raised: Option<Fault>, result: Value, ghost c: Ctx, ghost inner: Ran) returns (fault: Option<Fault>)
      requires Valid() && inner == EndOf(raised, inner.ctx) && result == inner.ctx.ret
      requires View() == CutTo(BackTo(c, inner.ctx), if |c.stack| >= site.sub.args then |c.stack| - site.sub.args else 0)
      modifies this`size, this`lists, stack, args, saved
      ensures Valid() && EndOf(fault, View()) == AfterCall(Room(), caller, site, c, inner)
    {
      hide RunOps, Unwind, CutTo, BackTo, Behind;
      if raised.Some? {
        UnwindOps(Behind(site));
        return raised;
      }
      if site.sub.gives {
        ghost var back := View();
        fault := Push(result);
        if fault.Some? {
          PushFails(Room(), back, result);
          UnwindOps(Behind(site));
          return;
        }
      }
      fault := RunFrameOps(caller, Behind(site));
    }

    /** The emitted sequence of a call; a fault inside is unwound and passed on. */
    method ExecuteSite(w: Natives, caller: Script, site: Site) returns (fault: Option<Fault>)
      requires Valid()
      modifies this, stack, args, saved
      ensures Valid() && EndOf(fault, View()) == CallSite(Room(), w, caller, site, old(View()))
      decreases site.sub, |site.sub.body| + 3
    {
      hide RunOps, EnterFrame, Process, RunItems, AfterCall, CutTo, BackTo;
      fault := RunFrameOps(caller, Before(site));
      if fault.Some? { return; }
      if depth >= MAX_DEPTH { return Some(TooDeep(site.sub)); }
      ghost var c := View();
      var heldFrame, heldArg, heldSaved, heldList, heldRet, heldDepth := frame, argBase, savedBase, listBase, ret, depth;
      var base := if size >= site.sub.args then size - site.sub.args else 0;
      var raised := EnterCallee(caller, site.sub);
      if raised == None { raised := RunProcess(w, site.sub); }
      ghost var inner := EndOf(raised, View());
      assert inner == Inner(Room(), w, caller, site, c);
      var result := ret;
      Restore(c, base, heldFrame, heldArg, heldSaved, heldList, heldRet, heldDepth);
      fault := FinishCall(caller, site, raised, result, c, inner);
    }

    /** `process` of a frame already set up: the capacity checks, then the commands in order. */
    method RunProcess(w: Natives, s: Script) returns (fault: Option<Fault>)
      requires Valid()
      modifies this, stack, args, saved
      ensures Valid() && EndOf(fault, View()) == Process(Room(), w, s, old(View()))
      decreases s, |s.body| + 1
    {
      if frame + s.maxStack > stack.Length { return Some(StackFull); }
      if savedBase + s.maxSaved > saved.Length { return Some(SavedFull); }
      if s.lists > 0 && listBase + s.lists > |lists| { return Some(ListsMissing); }
      fault := None;
      var index := 0;
      while index < |s.body|
        invariant Valid() && fault == None
        invariant RunItems(Room(), w, s, index, View()) == RunItems(Room(), w, s, 0, old(View()))
        decreases |s.body| - index
      {
        match s.body[index]
        case Local(op) =>
          fault := Local(w, op);
          if fault.Some? { return; }
          index := index + 1;
        case Goto(t) =>
          if t <= index { return Some(BadOperand); }
          index := t;
        case Unless(t) =>
          if size == 0 || t <= index { return Some(BadOperand); }
          var v := Pop();
          index := if w.holds(v) then index + 1 else t;
        case Execute(site) =>
          fault := ExecuteSite(w, s, site);
          if fault.Some? { return; }
          index := index + 1;
      }
    }
  }

  /** How a method's fault and the context it leaves read as a run. */
  function EndOf(fault: Option<Fault>, c: Ctx): Ran { if fault.Some? then Faulted(fault.value, c) else Ended(c) }

  lemma PushFails(l: Limits, c: Ctx, v: Value)
    ensures PushValue(l, c, v).Faulted? ==> PushValue(l, c, v).ctx == c
  {}
}
