/**
  List pipelines inside the machine. The machine leaves the native part of an opcode to
  `World.act`; here that is the pipelines' own, one callback at a time, and the opcode then
  ends as the plain functions say. What is proved of every `act`, such as what the peephole
  preserves, holds of these pipelines too.
*/
module ListRuns {
  import opened Machine
  import opened ListPipelines

  // --- the native part, one callback at a time ------------------------------------------------------

  /** The answer that ends the loop early. */
  function StopOf(kind: Kind): Option<Value> {
    match kind
    case AnyOf => Some(Bool(true))
    case AllOf => Some(Bool(false))
    case NoneOf => Some(Bool(true))
    case FirstOf => Some(Bool(true))
    case _ => None
  }

  /** The type the next answer must have, given the ones so far. */
  function WantOf(kind: Kind, us: seq<Value>): Option<Want> {
    match kind
    case MapTo => if us == [] then None else Some(Want(TypeOf(us[0]), MIXED_TYPES))
    case SumOf => FLOATS
    case MinOf => FLOATS
    case MaxOf => FLOATS
    case AverageOf => FLOATS
    case _ => BOOLS
  }

  predicate NeedsDefault(kind: Kind, xs: seq<Value>, us: seq<Value>) {
    match kind
    case MinOf => us == []
    case MaxOf => us == []
    case AverageOf => us == []
    case FirstOf => LastYes(us).None? || LastYes(us).value >= |xs|
    case LastOf => LastYes(us).None? || LastYes(us).value >= |xs|
    case _ => false
  }

  function Leave(cap: nat, n: Ending, l: nat, s: seq<Value>): Action {
    match n
    case Fails(err) => Abort(err)
    case Leaves(ys, v, e) =>
      if l >= |e.lists| then Abort(NoSuchSection)
      else if v.None? then Finish(s, WithList(e, l, ys))
      else if |s| >= cap then Abort(StackOverflow)
      else Finish(s + [v.value], WithList(e, l, ys))
  }

  const NO_DEFAULT: Fallback := _ => Raise(NoSuchSection)

  /** With `us` the answers so far: check the last, ask the next item, or conclude. */
  function NextAsk(cap: nat, kind: Kind, l: nat, us: seq<Value>, s: seq<Value>, e: Env): Action
    requires Asks(kind) && l < |e.lists|
  {
    var xs := e.lists[l];
    if us != [] && |us| <= |xs| && Unwanted(WantOf(kind, us[..|us| - 1]), us[|us| - 1]) then Abort(WantOf(kind, us[..|us| - 1]).value.otherwise)
    else if |us| < |xs| && !(us != [] && StopOf(kind) == Some(us[|us| - 1])) then Callback(0, Some(xs[|us|]), AnyReply)
    else if |us| <= |xs| then
      if NeedsDefault(kind, xs, us) then Callback(1, None, AnyReply) else Leave(cap, Concludes(kind, NO_DEFAULT, xs, us, e), l, s)
    else Leave(cap, Leaves(xs, Some(us[|us| - 1]), e), l, s)
  }

  function NextAction(cap: nat, kind: Kind, l: nat, item: Option<Ty>, us: seq<Value>, s: seq<Value>, e: Env): Action
    requires l < |e.lists|
  {
    var xs := e.lists[l];
    match kind
    case AddTo =>
      if us == [] then Callback(1, None, AnyReply)
      else if item.Some? && TypeOf(us[0]) != item.value then Abort(WRONG_ITEM)
      else Leave(cap, Leaves(xs + [us[0]], None, e), l, s)
    case Clear => Leave(cap, Leaves([], None, e), l, s)
    case Count => Leave(cap, Leaves(xs, Some(Float(|xs| as real)), e), l, s)
    case IsEmpty => Leave(cap, Leaves(xs, Some(Bool(xs == [])), e), l, s)
    case _ => NextAsk(cap, kind, l, us, s, e)
  }

  /** The pipelines as an `act`, for a frame whose lists start at `base` and a table of item types. */
  function PipelineAct(cap: nat, base: nat, types: int -> Option<Ty>, arg: int, aux: int, us: seq<Value>, s: seq<Value>, e: Env): Action {
    var kind, l := KindOf(LowHalf(arg)), HighHalf(arg) + base;
    if kind.None? || !(0 <= l < |e.lists|) then Abort(NoSuchSection) else NextAction(cap, kind.value, l, types(aux), us, s, e)
  }

  ghost predicate Pipelines(w: World, base: nat, types: int -> Option<Ty>) {
    forall arg, aux, us, s, e :: w.act(Pipeline, arg, aux, us, s, e) == PipelineAct(w.capacity, base, types, arg, aux, us, s, e)
  }

  // --- the run of the opcode ------------------------------------------------------------------------------

  /** The opcode at `pc` as the machine sees it. */
  datatype Site = Site(c: Code, pc: nat, hi: nat, base: nat, types: int -> Option<Ty>, kind: Kind, l: nat)

  ghost predicate At(w: World, t: Site) {
    && Shaped(t.c) && t.pc < |t.c.cmds| && t.pc < t.hi && t.c.cmds[t.pc].op.Pipeline? && Pipelines(w, t.base, t.types)
    && KindAt(t.c, t.pc) == Some(t.kind) && ListAt(t.c, t.pc, t.base) == t.l
  }

  lemma AtIs(w: World, t: Site)
    requires At(w, t)
    ensures Shaped(t.c) && t.pc < |t.c.cmds|
  {}

  predicate Behind(t: Site, k: nat, sec: Section)
    requires t.pc < |t.c.cmds|
  {
    SectionOf(t.c.cmds, t.pc, k) == Some(sec) && t.pc < sec.start <= sec.end <= t.hi
  }

  function ItemAt(t: Site): Option<Ty>
    requires t.pc < |t.c.cmds|
  {
    t.types(AuxOf(t.c.cmds, t.pc))
  }

  ghost predicate EndsLike(r: Outcome, n: Ending, l: nat, s: seq<Value>) {
    match n
    case Fails(err) => r == Failed(err)
    case Leaves(ys, v, e) => l < |e.lists| && r == Done(s + if v.Some? then [v.value] else [], WithList(e, l, ys))
  }

  function Turn(w: World, t: Site, us: seq<Value>, s: seq<Value>, e: Env, left: nat): Outcome
    requires Shaped(t.c) && t.pc < |t.c.cmds| && t.pc < t.hi && left <= w.limit
  {
    Iterate(w, t.c, t.pc, t.hi, us, s, e, left)
  }

  /** One turn: the action, and for a callback the run of its section and the turns behind it. */
  lemma TurnIs(w: World, t: Site, us: seq<Value>, s: seq<Value>, e: Env, left: nat)
    requires At(w, t) && left <= w.limit && t.l < |e.lists|
    ensures var a := NextAction(w.capacity, t.kind, t.l, ItemAt(t), us, s, e);
      && (a.Abort? ==> Turn(w, t, us, s, e, left) == Failed(a.error))
      && (a.Finish? ==> Turn(w, t, us, s, e, left) == Done(a.stack, a.env))
  {
    hide Run, NextAction;
  }

  function Reacted(s: seq<Value>, r: Reaction): Outcome { if r.Answer? then Done(s + [r.value], r.env) else Failed(r.error) }

  /** A callback of a section that left one value: the turns go on with one more answer. */
  lemma TurnAsks(w: World, t: Site, us: seq<Value>, s: seq<Value>, e: Env, left: nat, k: nat, input: Option<Value>, sec: Section, r: Reaction)
    requires At(w, t) && 0 < left <= w.limit && t.l < |e.lists| && |s| < w.capacity && Behind(t, k, sec)
    requires NextAction(w.capacity, t.kind, t.l, ItemAt(t), us, s, e) == Callback(k, input, AnyReply)
    requires Run(w, t.c, sec.start, sec.end, if input.Some? then s + [input.value] else s, e) ==
      Reacted(s, r)
    ensures r.Raise? ==> Turn(w, t, us, s, e, left) == Failed(r.error)
    ensures r.Answer? ==> Turn(w, t, us, s, e, left) == Turn(w, t, us + [r.value], s, r.env, left - 1)
  {
    hide Run, NextAction, SectionOf;
    if r.Answer? { assert (s + [r.value])[..|s|] == s; }
  }

  // --- concluding --------------------------------------------------------------------------------------

  /** The section of the items, and where the kind has one that of the default, on the stack `s`. */
  ghost predicate Sections(w: World, t: Site, ty: Ty, f: Body, g: Fallback, s: seq<Value>)
    requires At(w, t)
  {
    && (Asks(t.kind) ==> Behind(t, 0, ValueSection(t.c, t.pc)) && LeavesAlone(w, t.c, ValueSection(t.c, t.pc), t.l, ty, f, s))
    && (HasDefault(t.kind) ==> Behind(t, 1, DefaultSection(t.c, t.pc)) && DefaultsAlone(w, t.c, DefaultSection(t.c, t.pc), t.l, g, s))
  }

  lemma WithListTwice(e: Env, l: nat, xs: seq<Value>, ys: seq<Value>)
    requires l < |e.lists|
    ensures WithList(WithList(e, l, xs), l, ys) == WithList(e, l, ys)
  {
    assert e.lists[l := xs][l := ys] == e.lists[l := ys];
  }

  /** Without need of a default, what the answers come to does not depend on it, and keeps the environment. */
  lemma ConcludesAlone(kind: Kind, g: Fallback, xs: seq<Value>, us: seq<Value>, e: Env, e1: Env)
    requires Asks(kind) && (kind == Filter ==> |us| == |xs|) && !NeedsDefault(kind, xs, us)
    ensures var n, n1 := Concludes(kind, g, xs, us, e), Concludes(kind, NO_DEFAULT, xs, us, e1);
      n.Leaves? && n.env == e && n1 == Leaves(n.items, n.value, e1)
  {
    hide Kept, CountYes, Total, Best, LastYes;
  }

  lemma ConcludesDefault(kind: Kind, g: Fallback, xs: seq<Value>, us: seq<Value>, e: Env)
    requires Asks(kind) && (kind == Filter ==> |us| == |xs|) && NeedsDefault(kind, xs, us)
    ensures HasDefault(kind) && Concludes(kind, g, xs, us, e) == OrElse(xs, g, e)
  {
    hide Kept, CountYes, Total, Best, LastYes;
  }

  lemma LastYesBound(us: seq<Value>)
    ensures LastYes(us).Some? ==> LastYes(us).value < |us|
    ensures us != [] && us[|us| - 1] == Bool(true) ==> LastYes(us) == Some(|us| - 1)
  {}

  /** All items were asked, or the last answer ended the loop: what the action is. */
  predicate Ended(kind: Kind, xs: seq<Value>, us: seq<Value>) {
    && |us| <= |xs| && Fitting(kind, us)
    && (|us| == |xs| || (us != [] && StopOf(kind) == Some(us[|us| - 1])))
  }

  predicate Fitting(kind: Kind, us: seq<Value>) { us == [] || !Unwanted(WantOf(kind, us[..|us| - 1]), us[|us| - 1]) }

  lemma EndedActs(w: World, t: Site, us: seq<Value>, s: seq<Value>, e: Env)
    requires At(w, t) && Asks(t.kind) && t.l < |e.lists| && Ended(t.kind, e.lists[t.l], us)
    ensures var xs, a := e.lists[t.l], NextAction(w.capacity, t.kind, t.l, ItemAt(t), us, s, e);
      && (t.kind == Filter ==> |us| == |xs|)
      && (if NeedsDefault(t.kind, xs, us) then |us| == |xs| && a == Callback(1, None, AnyReply)
          else a == Leave(w.capacity, Concludes(t.kind, NO_DEFAULT, xs, us, e), t.l, s))
  {
    hide Leave, Concludes, At;
    LastYesBound(us);
  }

  lemma DefaultActs(w: World, t: Site, us: seq<Value>, v: Value, s: seq<Value>, e: Env)
    requires At(w, t) && Asks(t.kind) && t.l < |e.lists| && |us| == |e.lists[t.l]|
    ensures NextAction(w.capacity, t.kind, t.l, ItemAt(t), us + [v], s, e) == Leave(w.capacity, Leaves(e.lists[t.l], Some(v), e), t.l, s)
  {
    hide Leave, Concludes, At;
  }

  lemma ConcludeTurns(w: World, t: Site, ty: Ty, f: Body, g: Fallback, xs: seq<Value>, us: seq<Value>, s: seq<Value>, e: Env, left: nat)
    requires At(w, t) && Asks(t.kind) && Sections(w, t, ty, f, g, s) && |s| < w.capacity
    requires t.l < |e.lists| && Ended(t.kind, xs, us) && 0 < left <= w.limit && (t.kind == Filter ==> |us| == |xs|)
    ensures EndsLike(Turn(w, t, us, s, WithList(e, t.l, xs), left), Concludes(t.kind, g, xs, us, e), t.l, s)
  {
    hide Turn, NextAction, At, Concludes, Behind, LeavesAlone, DefaultsAlone, Ended, NeedsDefault;
    var e1 := WithList(e, t.l, xs);
    EndedActs(w, t, us, s, e1);
    if NeedsDefault(t.kind, xs, us) {
      ConcludesDefault(t.kind, g, xs, us, e);
      DefaultTurn(w, t, g, xs, us, s, e, left);
    } else {
      ConcludesAlone(t.kind, g, xs, us, e, e1);
      TurnIs(w, t, us, s, e1, left);
      var n := Concludes(t.kind, g, xs, us, e);
      WithListTwice(e, t.l, xs, n.items);
    }
  }

  lemma DefaultTurn(w: World, t: Site, g: Fallback, xs: seq<Value>, us: seq<Value>, s: seq<Value>, e: Env, left: nat)
    requires At(w, t) && Asks(t.kind) && |s| < w.capacity && t.l < |e.lists| && |us| == |xs| && 0 < left <= w.limit
    requires Behind(t, 1, DefaultSection(t.c, t.pc)) && DefaultsAlone(w, t.c, DefaultSection(t.c, t.pc), t.l, g, s)
    requires NextAction(w.capacity, t.kind, t.l, ItemAt(t), us, s, WithList(e, t.l, xs)) == Callback(1, None, AnyReply)
    ensures EndsLike(Turn(w, t, us, s, WithList(e, t.l, xs), left), OrElse(xs, g, e), t.l, s)
  {
    hide Turn, NextAction, At, Behind, Run;
    var e1, sec := WithList(e, t.l, xs), DefaultSection(t.c, t.pc);
    AtIs(w, t);
    assert Defaults(w, t.c, sec, t.l, g, s, e, xs);
    match g(e)
    case Raise(err) => TurnAsks(w, t, us, s, e1, left, 1, None, sec, Raise(err));
    case Answer(v, e') =>
      TurnAsks(w, t, us, s, e1, left, 1, None, sec, Reaction.Answer(v, WithList(e', t.l, xs)));
      DefaultActs(w, t, us, v, s, WithList(e', t.l, xs));
      TurnIs(w, t, us + [v], s, WithList(e', t.l, xs), left - 1);
      WithListTwice(e', t.l, xs, xs);
  }

  // --- asking --------------------------------------------------------------------------------------------

  /** The answers so far fit, none ended the loop, and with the ones to come they are the answers of the pipeline. */
  ghost predicate Asking(kind: Kind, f: Body, xs: seq<Value>, us: seq<Value>, e: Env, e1: Env)
    requires Asks(kind)
  {
    && |us| <= |xs| && Fitting(kind, us) && (us != [] ==> StopOf(kind) != Some(us[|us| - 1]))
    && (us == [] ==> e1 == e)
    && (us != [] ==> Prepend(us, Ask(f, WantOf(kind, us), StopOf(kind), xs[|us|..], e1)) == Answered(kind, f, xs, e))
  }

  lemma AskingActs(w: World, t: Site, us: seq<Value>, s: seq<Value>, e: Env)
    requires At(w, t) && Asks(t.kind) && t.l < |e.lists| && |us| < |e.lists[t.l]| && Fitting(t.kind, us)
    requires us != [] ==> StopOf(t.kind) != Some(us[|us| - 1])
    ensures NextAction(w.capacity, t.kind, t.l, ItemAt(t), us, s, e) == Callback(0, Some(e.lists[t.l][|us|]), AnyReply)
  {
    hide Leave, Concludes, At;
  }

  lemma MisfitActs(w: World, t: Site, us: seq<Value>, s: seq<Value>, e: Env)
    requires At(w, t) && Asks(t.kind) && t.l < |e.lists| && 0 < |us| <= |e.lists[t.l]| && !Fitting(t.kind, us)
    ensures NextAction(w.capacity, t.kind, t.l, ItemAt(t), us, s, e) == Abort(WantOf(t.kind, us[..|us| - 1]).value.otherwise)
  {
    hide Leave, Concludes, At;
  }

  /** The one more answer, in terms of all the answers of the pipeline. */
  lemma AskedOne(kind: Kind, f: Body, xs: seq<Value>, us: seq<Value>, e: Env, e1: Env)
    requires Asks(kind) && Asking(kind, f, xs, us, e, e1) && |us| < |xs|
    ensures var r, a := f(xs[|us|], e1), Answered(kind, f, xs, e);
      && (r.Raise? ==> a == Broke(r.error))
      && (r.Answer? && Unwanted(WantOf(kind, us), r.value) ==> a == Broke(WantOf(kind, us).value.otherwise))
      && (r.Answer? && !Unwanted(WantOf(kind, us), r.value) && StopOf(kind) == Some(r.value) ==> a == Replies(us + [r.value], r.env))
      && (r.Answer? && !Unwanted(WantOf(kind, us), r.value) && StopOf(kind) != Some(r.value) ==> Asking(kind, f, xs, us + [r.value], e, r.env))
  {
    hide Ask;
    var i := |us|;
    if us == [] && kind == MapTo {
      AskSameStarts(f, xs, e);
    } else {
      if us == [] { AnsweredStarts(kind, f, xs, e); AskStarts(f, WantOf(kind, us), StopOf(kind), xs, e); }
      AskStep(f, WantOf(kind, us), StopOf(kind), xs, i, us, e1);
    }
    if f(xs[i], e1).Answer? { WantMore(kind, us, f(xs[i], e1).value); }
  }

  lemma AnsweredStarts(kind: Kind, f: Body, xs: seq<Value>, e: Env)
    requires Asks(kind) && kind != MapTo
    ensures Answered(kind, f, xs, e) == Ask(f, WantOf(kind, []), StopOf(kind), xs, e)
  {
    hide Ask;
  }

  /** The wanted type is fixed by the kind, or by the first answer. */
  lemma WantMore(kind: Kind, us: seq<Value>, v: Value)
    ensures (us + [v])[..|us|] == us && (us + [v])[|us|] == v
    ensures us != [] || kind != MapTo ==> WantOf(kind, us + [v]) == WantOf(kind, us)
  {}

  lemma AskedAll(kind: Kind, f: Body, xs: seq<Value>, us: seq<Value>, e: Env, e1: Env)
    requires Asks(kind) && Asking(kind, f, xs, us, e, e1) && |us| == |xs|
    ensures Answered(kind, f, xs, e) == Replies(us, e1) && Ended(kind, xs, us)
  {
    hide Ask;
    AskEnds(f, WantOf(kind, us), StopOf(kind), xs, us, e1);
    if us == [] {
      AskStarts(f, WantOf(kind, us), StopOf(kind), xs, e);
      if kind != MapTo { AnsweredStarts(kind, f, xs, e); }
    }
  }

  /** What the answers come to, or the first error among them. */
  function EndingOf(kind: Kind, f: Body, g: Fallback, xs: seq<Value>, e: Env): Ending
    requires Asks(kind)
  {
    match Answered(kind, f, xs, e)
    case Replies(vs, e') => Concludes(kind, g, xs, vs, e')
    case Broke(err) => Fails(err)
  }

  lemma AskingIs(kind: Kind, f: Body, xs: seq<Value>, us: seq<Value>, e: Env, e1: Env)
    requires Asks(kind) && Asking(kind, f, xs, us, e, e1)
    ensures |us| <= |xs| && Fitting(kind, us) && (us != [] ==> StopOf(kind) != Some(us[|us| - 1]))
  {}

  /** One item asked: its error, or one answer more. */
  lemma AskTurn(w: World, t: Site, ty: Ty, f: Body, g: Fallback, xs: seq<Value>, us: seq<Value>, s: seq<Value>, e: Env, left: nat)
    requires At(w, t) && Asks(t.kind) && Sections(w, t, ty, f, g, s) && |s| < w.capacity && Items(ty, xs)
    requires t.l < |e.lists| && |us| < |xs| && 0 < left <= w.limit && Fitting(t.kind, us) && (us != [] ==> StopOf(t.kind) != Some(us[|us| - 1]))
    ensures var r := f(xs[|us|], e);
      && (r.Raise? ==> Turn(w, t, us, s, WithList(e, t.l, xs), left) == Failed(r.error))
      && (r.Answer? ==> t.l < |r.env.lists|)
      && (r.Answer? ==> Turn(w, t, us, s, WithList(e, t.l, xs), left) == Turn(w, t, us + [r.value], s, WithList(r.env, t.l, xs), left - 1))
  {
    hide Turn, NextAction, At, Behind, Run, Fitting;
    AtIs(w, t);
    var x, e1, sec := xs[|us|], WithList(e, t.l, xs), ValueSection(t.c, t.pc);
    AskingActs(w, t, us, s, e1);
    assert Answers(w, t.c, sec, t.l, f, s, x, e, xs);
    match f(x, e)
    case Raise(err) => TurnAsks(w, t, us, s, e1, left, 0, Some(x), sec, Raise(err));
    case Answer(v, e') => TurnAsks(w, t, us, s, e1, left, 0, Some(x), sec, Reaction.Answer(v, WithList(e', t.l, xs)));
  }

  /** An answer that does not fit ends the opcode with its error. */
  lemma MisfitTurn(w: World, t: Site, xs: seq<Value>, us: seq<Value>, v: Value, s: seq<Value>, e: Env, left: nat)
    requires At(w, t) && Asks(t.kind) && t.l < |e.lists| && |us| < |xs| && left <= w.limit && Unwanted(WantOf(t.kind, us), v)
    ensures Turn(w, t, us + [v], s, WithList(e, t.l, xs), left) == Failed(WantOf(t.kind, us).value.otherwise)
  {
    hide Turn, NextAction, At, WantOf;
    WantMore(t.kind, us, v);
    MisfitActs(w, t, us + [v], s, WithList(e, t.l, xs));
    TurnIs(w, t, us + [v], s, WithList(e, t.l, xs), left);
  }

  lemma {:induction false} AskTurns(w: World, t: Site, ty: Ty, f: Body, g: Fallback, xs: seq<Value>, us: seq<Value>, s: seq<Value>, e: Env, e1: Env, left: nat)
    requires At(w, t) && Asks(t.kind) && Sections(w, t, ty, f, g, s) && |s| < w.capacity && Items(ty, xs)
    requires t.l < |e1.lists| && Asking(t.kind, f, xs, us, e, e1) && |xs| - |us| < left <= w.limit
    ensures EndsLike(Turn(w, t, us, s, WithList(e1, t.l, xs), left), EndingOf(t.kind, f, g, xs, e), t.l, s)
    decreases |xs| - |us|
  {
    hide Turn, NextAction, At, Concludes, Sections, Asking, Answered, Unwanted, StopOf, WantOf, Items;
    AskingIs(t.kind, f, xs, us, e, e1);
    if |us| == |xs| {
      AskedAll(t.kind, f, xs, us, e, e1);
      ConcludeTurns(w, t, ty, f, g, xs, us, s, e1, left);
    } else {
      var r := f(xs[|us|], e1);
      AskTurn(w, t, ty, f, g, xs, us, s, e1, left);
      AskedOne(t.kind, f, xs, us, e, e1);
      if r.Answer? {
        WantMore(t.kind, us, r.value);
        if Unwanted(WantOf(t.kind, us), r.value) {
          MisfitTurn(w, t, xs, us, r.value, s, r.env, left - 1);
        } else if StopOf(t.kind) == Some(r.value) {
          ConcludeTurns(w, t, ty, f, g, xs, us + [r.value], s, r.env, left - 1);
        } else {
          AskTurns(w, t, ty, f, g, xs, us + [r.value], s, e, r.env, left - 1);
        }
      }
    }
  }

  // --- the opcodes that ask nothing -----------------------------------------------------------------------

  lemma PlainTurns(w: World, t: Site, ty: Ty, f: Body, g: Fallback, xs: seq<Value>, s: seq<Value>, e: Env)
    requires At(w, t) && !Asks(t.kind) && Sections(w, t, ty, f, g, s) && |s| < w.capacity && t.l < |e.lists| && 0 < w.limit
    ensures EndsLike(Turn(w, t, [], s, WithList(e, t.l, xs), w.limit), Means(t.kind, f, g, ItemAt(t), xs, e), t.l, s)
  {
    hide Turn, At, Behind, Run, NextAsk, ItemAt;
    AtIs(w, t);
    var e1 := WithList(e, t.l, xs);
    if t.kind.AddTo? {
      var sec := DefaultSection(t.c, t.pc);
      assert Defaults(w, t.c, sec, t.l, g, s, e, xs);
      match g(e)
      case Raise(err) => TurnAsks(w, t, [], s, e1, w.limit, 1, None, sec, Raise(err));
      case Answer(v, e') =>
        TurnAsks(w, t, [], s, e1, w.limit, 1, None, sec, Reaction.Answer(v, WithList(e', t.l, xs)));
        assert [] + [v] == [v];
        TurnIs(w, t, [v], s, WithList(e', t.l, xs), w.limit - 1);
        WithListTwice(e', t.l, xs, xs + [v]);
    } else {
      TurnIs(w, t, [], s, e1, w.limit);
      WithListTwice(e, t.l, xs, xs);
      WithListTwice(e, t.l, xs, []);
    }
  }

  /** In the machine, too, the opcode ends as the pipeline means: `Context.Execute` and `Iterate` agree. */
  lemma PipelineRuns(w: World, t: Site, ty: Ty, f: Body, g: Fallback, xs: seq<Value>, s: seq<Value>, e: Env)
    requires At(w, t) && Sections(w, t, ty, f, g, s) && (Asks(t.kind) ==> Items(ty, xs))
    requires |s| < w.capacity && |xs| < w.limit && t.l < |e.lists|
    ensures EndsLike(Iterate(w, t.c, t.pc, t.hi, [], s, WithList(e, t.l, xs), w.limit), Means(t.kind, f, g, ItemAt(t), xs, e), t.l, s)
  {
    hide Iterate, At, Sections, Items, NextAction, ItemAt;
    AtIs(w, t);
    if Asks(t.kind) {
      AskTurns(w, t, ty, f, g, xs, [], s, e, e, w.limit);
      MeansEnding(t.kind, f, g, ItemAt(t), xs, e);
    } else {
      PlainTurns(w, t, ty, f, g, xs, s, e);
    }
  }

  lemma MeansEnding(kind: Kind, f: Body, g: Fallback, item: Option<Ty>, xs: seq<Value>, e: Env)
    requires Asks(kind)
    ensures Means(kind, f, g, item, xs, e) == EndingOf(kind, f, g, xs, e)
  {
    hide Answered, Concludes;
  }
}
