/**
  List pipelines: the loops of the opcode, with every callback a run of a command section,
  against the plain functions on sequences they stand for.
*/
module ListPipelines {
  import opened Machine

  // --- callbacks as functions ----------------------------------------------------------------

  datatype Reaction = Answer(value: Value, env: Env) | Raise(error: Error)

  type Body = (Value, Env) -> Reaction
  type Fallback = Env -> Reaction

  function WithList(e: Env, l: nat, items: seq<Value>): Env
    requires l < |e.lists|
  {
    e.(lists := e.lists[l := items])
  }

  /**
    One run of a section, begun on the stack the opcode found: it takes its input off the
    stack, adds its answer, and neither reads nor changes the list.
  */
  ghost predicate Answers(w: World, c: Code, s: Section, l: nat, f: Body, stack: seq<Value>, x: Value, e: Env, items: seq<Value>)
    requires Shaped(c) && 0 <= s.start && 0 <= s.end
  {
    l < |e.lists| ==>
      var r := Run(w, c, s.start, s.end, stack + [x], WithList(e, l, items));
      match f(x, e)
      case Answer(v, e') => l < |e'.lists| && r == Done(stack + [v], WithList(e', l, items))
      case Raise(err) => r == Failed(err)
  }

  /** The section does so for every input of the list's type; every turn of the loop finds the same stack. */
  ghost predicate LeavesAlone(w: World, c: Code, s: Section, l: nat, ty: Ty, f: Body, stack: seq<Value>)
    requires Shaped(c)
  {
    0 <= s.start && 0 <= s.end && forall x, e, items :: TypeOf(x) == ty ==> Answers(w, c, s, l, f, stack, x, e, items)
  }

  ghost predicate Defaults(w: World, c: Code, s: Section, l: nat, g: Fallback, stack: seq<Value>, e: Env, items: seq<Value>)
    requires Shaped(c) && 0 <= s.start && 0 <= s.end
  {
    l < |e.lists| ==>
      var r := Run(w, c, s.start, s.end, stack, WithList(e, l, items));
      match g(e)
      case Answer(v, e') => l < |e'.lists| && r == Done(stack + [v], WithList(e', l, items))
      case Raise(err) => r == Failed(err)
  }

  ghost predicate DefaultsAlone(w: World, c: Code, s: Section, l: nat, g: Fallback, stack: seq<Value>)
    requires Shaped(c)
  {
    0 <= s.start && 0 <= s.end && forall e, items :: Defaults(w, c, s, l, g, stack, e, items)
  }

  predicate Items(ty: Ty, xs: seq<Value>) { forall k :: 0 <= k < |xs| ==> TypeOf(xs[k]) == ty }

  // --- the plain functions -----------------------------------------------------------------------

  /** The answers to the items in order, up to and including the first that is `stop`; an answer of another type is an error. */
  datatype Asked = Replies(values: seq<Value>, env: Env) | Broke(error: Error)

  datatype Want = Want(ty: Ty, otherwise: Error)

  predicate Unwanted(want: Option<Want>, v: Value) { want.Some? && TypeOf(v) != want.value.ty }

  function Ask(f: Body, want: Option<Want>, stop: Option<Value>, xs: seq<Value>, e: Env): (r: Asked)
    ensures r.Replies? ==> |r.values| <= |xs| && (stop == None ==> |r.values| == |xs|)
    decreases |xs|
  {
    if xs == [] then Replies([], e)
    else match f(xs[0], e)
      case Raise(err) => Broke(err)
      case Answer(v, e1) =>
        if Unwanted(want, v) then Broke(want.value.otherwise)
        else if stop == Some(v) then Replies([v], e1)
        else Prepend([v], Ask(f, want, stop, xs[1..], e1))
  }

  function Prepend(vs: seq<Value>, a: Asked): Asked { if a.Replies? then Replies(vs + a.values, a.env) else a }

  /** `map` asks for the type of the first answer from then on. */
  function AskSame(f: Body, xs: seq<Value>, e: Env): Asked {
    if xs == [] then Replies([], e)
    else match f(xs[0], e)
      case Raise(err) => Broke(err)
      case Answer(v, e1) =>
        match Ask(f, Some(Want(TypeOf(v), MIXED_TYPES)), None, xs[1..], e1)
        case Replies(vs, e2) => Replies([v] + vs, e2)
        case Broke(err) => Broke(err)
  }

  predicate Yes(v: Value) { v == Bool(true) }

  function Kept(xs: seq<Value>, vs: seq<Value>): (r: seq<Value>)
    requires |xs| == |vs|
    ensures |r| <= |xs|
  {
    if xs == [] then [] else Kept(xs[..|xs| - 1], vs[..|xs| - 1]) + if Yes(vs[|xs| - 1]) then [xs[|xs| - 1]] else []
  }

  function Number(v: Value): real { if v.Float? then v.r else 0.0 }

  function Total(vs: seq<Value>): real { if vs == [] then 0.0 else Total(vs[..|vs| - 1]) + Number(vs[|vs| - 1]) }

  function CountYes(vs: seq<Value>): nat { if vs == [] then 0 else CountYes(vs[..|vs| - 1]) + if Yes(vs[|vs| - 1]) then 1 else 0 }

  datatype Extreme = Smallest | Greatest

  predicate Beats(k: Extreme, a: real, b: real) { if k.Smallest? then a < b else b < a }

  function Best(k: Extreme, vs: seq<Value>): real
    requires vs != []
  {
    if |vs| == 1 then Number(vs[0])
    else
      var b, v := Best(k, vs[..|vs| - 1]), Number(vs[|vs| - 1]);
      if Beats(k, v, b) then v else b
  }

  /** It is one of the numbers, and none beats it. */
  lemma {:induction false} BestIs(k: Extreme, vs: seq<Value>)
    requires vs != []
    ensures exists i :: 0 <= i < |vs| && Number(vs[i]) == Best(k, vs)
    ensures forall i :: 0 <= i < |vs| ==> !Beats(k, Number(vs[i]), Best(k, vs))
    decreases |vs|
  {
    if |vs| > 1 {
      var front := vs[..|vs| - 1];
      BestIs(k, front);
      var i :| 0 <= i < |front| && Number(front[i]) == Best(k, front);
      assert Number(vs[i]) == Best(k, front) && vs[|vs| - 1] == vs[|vs| - 1];
      forall j | 0 <= j < |vs| ensures !Beats(k, Number(vs[j]), Best(k, vs)) {
        if j < |front| { assert vs[j] == front[j]; }
      }
      assert Best(k, vs) == Number(vs[i]) || Best(k, vs) == Number(vs[|vs| - 1]);
    } else {
      assert Number(vs[0]) == Best(k, vs);
    }
  }

  /** What is kept are the items answered with yes, each in its place among the others. */
  lemma {:induction false} KeptAt(xs: seq<Value>, vs: seq<Value>, i: nat)
    requires i < |xs| == |vs|
    ensures Yes(vs[i]) ==> CountYes(vs[..i]) < |Kept(xs, vs)| && Kept(xs, vs)[CountYes(vs[..i])] == xs[i]
    decreases |xs|
  {
    var n := |xs| - 1;
    KeptCount(xs[..n], vs[..n]);
    if i < n {
      KeptAt(xs[..n], vs[..n], i);
      assert vs[..n][..i] == vs[..i];
    }
  }

  lemma {:induction false} KeptCount(xs: seq<Value>, vs: seq<Value>)
    requires |xs| == |vs|
    ensures |Kept(xs, vs)| == CountYes(vs)
    decreases |xs|
  {
    if xs != [] { KeptCount(xs[..|xs| - 1], vs[..|vs| - 1]); }
  }

  // --- asking item by item -----------------------------------------------------------------------------

  lemma PrependTwice(us: seq<Value>, v: Value, a: Asked)
    ensures Prepend(us, Prepend([v], a)) == Prepend(us + [v], a)
  {
    if a.Replies? { assert us + ([v] + a.values) == us + [v] + a.values; }
  }

  /** One more item was answered and did not stop the loop. */
  lemma AskStep(f: Body, want: Option<Want>, stop: Option<Value>, xs: seq<Value>, i: nat, us: seq<Value>, e: Env)
    requires i < |xs|
    ensures match f(xs[i], e)
      case Raise(err) => Prepend(us, Ask(f, want, stop, xs[i..], e)) == Broke(err)
      case Answer(v, e1) =>
        && (Unwanted(want, v) ==> Prepend(us, Ask(f, want, stop, xs[i..], e)) == Broke(want.value.otherwise))
        && (!Unwanted(want, v) && stop == Some(v) ==> Prepend(us, Ask(f, want, stop, xs[i..], e)) == Replies(us + [v], e1))
        && (!Unwanted(want, v) && stop != Some(v) ==>
              Prepend(us, Ask(f, want, stop, xs[i..], e)) == Prepend(us + [v], Ask(f, want, stop, xs[i + 1..], e1)))
  {
    assert xs[i..][0] == xs[i] && xs[i..][1..] == xs[i + 1..];
    if f(xs[i], e).Answer? { PrependTwice(us, f(xs[i], e).value, Ask(f, want, stop, xs[i + 1..], f(xs[i], e).env)); }
  }

  lemma AskEnds(f: Body, want: Option<Want>, stop: Option<Value>, xs: seq<Value>, us: seq<Value>, e: Env)
    ensures Prepend(us, Ask(f, want, stop, xs[|xs|..], e)) == Replies(us, e)
  {
    assert us + [] == us;
  }

  lemma AskStarts(f: Body, want: Option<Want>, stop: Option<Value>, xs: seq<Value>, e: Env)
    ensures Prepend([], Ask(f, want, stop, xs[0..], e)) == Ask(f, want, stop, xs, e)
  {
    assert xs[0..] == xs;
    var a := Ask(f, want, stop, xs, e);
    if a.Replies? { assert [] + a.values == a.values; }
  }

  // --- the opcode ------------------------------------------------------------------------------------------

  datatype Kind =
    | AddTo | Clear | Filter | MapTo | Count | IsEmpty
    | AnyOf | AllOf | NoneOf | CountIf | SumOf
    | MinOf | MaxOf | AverageOf | FirstOf | LastOf

  /** What the opcode leaves: the list, perhaps a value on the stack, and the environment; or an error. */
  datatype Ending = Leaves(items: seq<Value>, value: Option<Value>, env: Env) | Fails(error: Error)

  const MIXED_TYPES: Error := Native(1)
  const WRONG_ITEM: Error := Native(2)

  const BOOLS: Option<Want> := Some(Want(TBool, TypeMismatch))
  const FLOATS: Option<Want> := Some(Want(TFloat, TypeMismatch))

  function OrElse(xs: seq<Value>, g: Fallback, e: Env): Ending {
    match g(e)
    case Answer(v, e') => Leaves(xs, Some(v), e')
    case Raise(err) => Fails(err)
  }

  function LastYes(vs: seq<Value>): Option<nat> {
    if vs == [] then None else if Yes(vs[|vs| - 1]) then Some(|vs| - 1) else LastYes(vs[..|vs| - 1])
  }

  predicate Asks(kind: Kind) { !kind.AddTo? && !kind.Clear? && !kind.Count? && !kind.IsEmpty? }

  predicate HasDefault(kind: Kind) { kind.AddTo? || kind.MinOf? || kind.MaxOf? || kind.AverageOf? || kind.FirstOf? || kind.LastOf? }

  /** The answers a pipeline asks for: which type they have, and which one ends the loop. */
  function Answered(kind: Kind, f: Body, xs: seq<Value>, e: Env): (r: Asked)
    requires Asks(kind)
    ensures kind == Filter && r.Replies? ==> |r.values| == |xs|
  {
    match kind
    case MapTo => AskSame(f, xs, e)
    case AnyOf => Ask(f, BOOLS, Some(Bool(true)), xs, e)
    case AllOf => Ask(f, BOOLS, Some(Bool(false)), xs, e)
    case NoneOf => Ask(f, BOOLS, Some(Bool(true)), xs, e)
    case FirstOf => Ask(f, BOOLS, Some(Bool(true)), xs, e)
    case SumOf => Ask(f, FLOATS, None, xs, e)
    case MinOf => Ask(f, FLOATS, None, xs, e)
    case MaxOf => Ask(f, FLOATS, None, xs, e)
    case AverageOf => Ask(f, FLOATS, None, xs, e)
    case _ => Ask(f, BOOLS, None, xs, e)
  }

  /** What the answers come to. */
  function Concludes(kind: Kind, g: Fallback, xs: seq<Value>, vs: seq<Value>, e: Env): Ending
    requires Asks(kind) && (kind == Filter ==> |vs| == |xs|)
  {
    match kind
    case Filter => Leaves(Kept(xs, vs), None, e)
    case MapTo => Leaves(vs, None, e)
    case AnyOf => Leaves(xs, Some(Bool(Bool(true) in vs)), e)
    case AllOf => Leaves(xs, Some(Bool(Bool(false) !in vs)), e)
    case NoneOf => Leaves(xs, Some(Bool(Bool(true) !in vs)), e)
    case CountIf => Leaves(xs, Some(Float(CountYes(vs) as real)), e)
    case SumOf => Leaves(xs, Some(Float(Total(vs))), e)
    case MinOf => if vs == [] then OrElse(xs, g, e) else Leaves(xs, Some(Float(Best(Smallest, vs))), e)
    case MaxOf => if vs == [] then OrElse(xs, g, e) else Leaves(xs, Some(Float(Best(Greatest, vs))), e)
    case AverageOf => if vs == [] then OrElse(xs, g, e) else Leaves(xs, Some(Float(Total(vs) / |vs| as real)), e)
    case _ => Picked(xs, LastYes(vs), g, e)
  }

  /** What the pipeline means, from the answers alone. */
  function Means(kind: Kind, f: Body, g: Fallback, item: Option<Ty>, xs: seq<Value>, e: Env): Ending {
    match kind
    case AddTo =>
      (match g(e)
       case Answer(v, e') => if item.Some? && TypeOf(v) != item.value then Fails(WRONG_ITEM) else Leaves(xs + [v], None, e')
       case Raise(err) => Fails(err))
    case Clear => Leaves([], None, e)
    case Count => Leaves(xs, Some(Float(|xs| as real)), e)
    case IsEmpty => Leaves(xs, Some(Bool(xs == [])), e)
    case _ =>
      match Answered(kind, f, xs, e)
      case Replies(vs, e') => Concludes(kind, g, xs, vs, e')
      case Broke(err) => Fails(err)
  }

  /** The item found, or the default when nothing qualifies. */
  function Picked(xs: seq<Value>, i: Option<nat>, g: Fallback, e: Env): Ending {
    if i.Some? && i.value < |xs| then Leaves(xs, Some(xs[i.value]), e) else OrElse(xs, g, e)
  }

  datatype Got = Good(value: Value) | Bad(error: Error)

  class Context {
    var stack: seq<Value>
    var env: Env

    constructor (stack: seq<Value>, env: Env)
      ensures this.stack == stack && this.env == env
    {
      this.stack, this.env := stack, env;
    }

    /** Pushes the item, runs the section, and takes the answer off the stack. */
    method RunListCallback(w: World, c: Code, sec: Section, want: Option<Want>, item: Value, ghost l: nat, ghost ty: Ty, ghost f: Body, ghost e: Env, ghost items: seq<Value>)
      returns (r: Got)
      requires Shaped(c) && LeavesAlone(w, c, sec, l, ty, f, stack) && |stack| < w.capacity && TypeOf(item) == ty && l < |e.lists| && env == WithList(e, l, items)
      modifies this
      ensures match f(item, e)
        case Raise(err) => r == Bad(err)
        case Answer(v, e') =>
          if Unwanted(want, v) then r == Bad(want.value.otherwise)
          else r == Good(v) && stack == old(stack) && l < |e'.lists| && env == WithList(e', l, items)
    {
      hide Run;
      assert Answers(w, c, sec, l, f, stack, item, e, items);
      match Run(w, c, sec.start, sec.end, stack + [item], env) {
        case Done(s, e') =>
          var v := s[|s| - 1];
          if Unwanted(want, v) { return Bad(want.value.otherwise); }
          stack, env := s[..|s| - 1], e';
          r := Good(v);
        case Failed(err) => r := Bad(err);
        case _ => r := Bad(NoSuchSection);
      }
    }

    method RunDefaultCallback(w: World, c: Code, sec: Section, ghost l: nat, ghost g: Fallback, ghost e: Env, ghost items: seq<Value>) returns (r: Got)
      requires Shaped(c) && DefaultsAlone(w, c, sec, l, g, stack) && l < |e.lists| && env == WithList(e, l, items)
      modifies this
      ensures match g(e)
        case Raise(err) => r == Bad(err)
        case Answer(v, e') => r == Good(v) && stack == old(stack) && l < |e'.lists| && env == WithList(e', l, items)
    {
      hide Run;
      assert Defaults(w, c, sec, l, g, stack, e, items);
      match Run(w, c, sec.start, sec.end, stack, env) {
        case Done(s, e') =>
          stack, env := s[..|s| - 1], e';
          r := Good(s[|s| - 1]);
        case Failed(err) => r := Bad(err);
        case _ => r := Bad(NoSuchSection);
      }
    }

    /** Keeps the items answered with yes, moving them to the front of the list as it goes. */
    method FilterList(w: World, c: Code, sec: Section, l: nat, ghost ty: Ty, ghost f: Body, ghost e: Env, ghost xs: seq<Value>) returns (error: Option<Error>)
      requires Shaped(c) && LeavesAlone(w, c, sec, l, ty, f, stack) && |stack| < w.capacity && Items(ty, xs) && l < |e.lists| && env == WithList(e, l, xs)
      modifies this
      ensures match Ask(f, BOOLS, None, xs, e)
        case Broke(err) => error == Some(err)
        case Replies(vs, e') => error == None && stack == old(stack) && l < |e'.lists| && env == WithList(e', l, Kept(xs, vs))
    {
      hide LeavesAlone, Ask, Kept;
      ghost var us: seq<Value>, e1, items := [], e, xs;
      var out, i := 0, 0;
      AskStarts(f, BOOLS, None, xs, e);
      KeptNone(xs, us);
      while i < |env.lists[l]|
        invariant l < |e1.lists| && |e1.lists| == |env.lists| && env == WithList(e1, l, items) && stack == old(stack)
        invariant out <= i <= |items| == |xs| && |us| == i && Prepend(us, Ask(f, BOOLS, None, xs[i..], e1)) == Ask(f, BOOLS, None, xs, e)
        invariant items[..out] == Kept(xs[..i], us) && forall j :: i <= j < |xs| ==> items[j] == xs[j]
        decreases |xs| - i
      {
        AskStep(f, BOOLS, None, xs, i, us, e1);
        var r := RunListCallback(w, c, sec, BOOLS, env.lists[l][i], l, ty, f, e1, items);
        if r.Bad? { return Some(r.error); }
        e1 := f(xs[i], e1).env;
        KeptNext(xs, us, i, r.value);
        if Yes(r.value) {
          if out != i {
            env := env.(lists := env.lists[l := env.lists[l][out := env.lists[l][i]]]);
            items := items[out := items[i]];
          }
          assert items[..out + 1] == items[..out] + [xs[i]];
          out := out + 1;
        }
        us, i := us + [r.value], i + 1;
      }
      AskEnds(f, BOOLS, None, xs, us, e1);
      assert xs[..i] == xs;
      env := env.(lists := env.lists[l := env.lists[l][..out]]);
      error := None;
    }

    /** Whether an answer `stop` occurs; the loop ends at the first. */
    method Meets(w: World, c: Code, sec: Section, l: nat, ghost ty: Ty, stop: bool, ghost f: Body, ghost e: Env, ghost xs: seq<Value>) returns (r: Got)
      requires Shaped(c) && LeavesAlone(w, c, sec, l, ty, f, stack) && |stack| < w.capacity && Items(ty, xs) && l < |e.lists| && env == WithList(e, l, xs)
      modifies this
      ensures match Ask(f, BOOLS, Some(Bool(stop)), xs, e)
        case Broke(err) => r == Bad(err)
        case Replies(vs, e') => r == Good(Bool(Bool(stop) in vs)) && stack == old(stack) && l < |e'.lists| && env == WithList(e', l, xs)
    {
      hide LeavesAlone, Ask;
      ghost var us: seq<Value>, e1 := [], e;
      var i := 0;
      AskStarts(f, BOOLS, Some(Bool(stop)), xs, e);
      while i < |env.lists[l]|
        invariant l < |e1.lists| && |e1.lists| == |env.lists| && env == WithList(e1, l, xs) && stack == old(stack)
        invariant i <= |xs| && |us| == i && Prepend(us, Ask(f, BOOLS, Some(Bool(stop)), xs[i..], e1)) == Ask(f, BOOLS, Some(Bool(stop)), xs, e)
        invariant Bool(stop) !in us
        decreases |xs| - i
      {
        AskStep(f, BOOLS, Some(Bool(stop)), xs, i, us, e1);
        var got := RunListCallback(w, c, sec, BOOLS, env.lists[l][i], l, ty, f, e1, xs);
        if got.Bad? { return got; }
        ghost var front := us;
        us, e1, i := us + [got.value], f(xs[i], e1).env, i + 1;
        assert forall v :: v in us <==> v in front || v == got.value;
        if got.value == Bool(stop) { return Good(Bool(true)); }
      }
      AskEnds(f, BOOLS, Some(Bool(stop)), xs, us, e1);
      r := Good(Bool(false));
    }

    /** Adds up the answers: 1 for every yes, or the numbers themselves. */
    method AddUp(w: World, c: Code, sec: Section, l: nat, ghost ty: Ty, counting: bool, ghost f: Body, ghost e: Env, ghost xs: seq<Value>) returns (r: Got)
      requires Shaped(c) && LeavesAlone(w, c, sec, l, ty, f, stack) && |stack| < w.capacity && Items(ty, xs) && l < |e.lists| && env == WithList(e, l, xs)
      modifies this
      ensures match Ask(f, if counting then BOOLS else FLOATS, None, xs, e)
        case Broke(err) => r == Bad(err)
        case Replies(vs, e') =>
          r == Good(Float(if counting then CountYes(vs) as real else Total(vs))) && stack == old(stack) && l < |e'.lists| && env == WithList(e', l, xs)
    {
      hide LeavesAlone, Ask, CountYes, Total;
      var want := if counting then BOOLS else FLOATS;
      ghost var us: seq<Value>, e1 := [], e;
      var i, sum := 0, 0.0;
      AskStarts(f, want, None, xs, e);
      SumsNone(us);
      while i < |env.lists[l]|
        invariant l < |e1.lists| && |e1.lists| == |env.lists| && env == WithList(e1, l, xs) && stack == old(stack)
        invariant i <= |xs| && |us| == i && Prepend(us, Ask(f, want, None, xs[i..], e1)) == Ask(f, want, None, xs, e)
        invariant sum == if counting then CountYes(us) as real else Total(us)
        decreases |xs| - i
      {
        AskStep(f, want, None, xs, i, us, e1);
        var got := RunListCallback(w, c, sec, want, env.lists[l][i], l, ty, f, e1, xs);
        if got.Bad? { return got; }
        SumsNext(us, got.value);
        sum := sum + if !counting then Number(got.value) else if Yes(got.value) then 1.0 else 0.0;
        us, e1, i := us + [got.value], f(xs[i], e1).env, i + 1;
      }
      AskEnds(f, want, None, xs, us, e1);
      r := Good(Float(sum));
    }

    /** The least, greatest or average answer; nothing when the list is empty. */
    method Measure(w: World, c: Code, sec: Section, l: nat, ghost ty: Ty, kind: Kind, ghost f: Body, ghost e: Env, ghost xs: seq<Value>) returns (r: Option<Got>)
      requires Shaped(c) && LeavesAlone(w, c, sec, l, ty, f, stack) && |stack| < w.capacity && Items(ty, xs) && l < |e.lists| && env == WithList(e, l, xs)
      requires kind.MinOf? || kind.MaxOf? || kind.AverageOf?
      modifies this
      ensures match Ask(f, FLOATS, None, xs, e)
        case Broke(err) => r == Some(Bad(err))
        case Replies(vs, e') =>
          && stack == old(stack) && l < |e'.lists| && env == WithList(e', l, xs)
          && r == if vs == [] then None else Some(Good(Float(
                    if kind.AverageOf? then Total(vs) / |vs| as real else Best(if kind.MinOf? then Smallest else Greatest, vs))))
    {
      hide LeavesAlone, Ask, Total, Best;
      ghost var us: seq<Value>, e1 := [], e;
      ghost var extreme := if kind.MinOf? then Smallest else Greatest;
      var i, found, best, sum, count := 0, false, 0.0, 0.0, 0;
      AskStarts(f, FLOATS, None, xs, e);
      SumsNone(us);
      while i < |env.lists[l]|
        invariant l < |e1.lists| && |e1.lists| == |env.lists| && env == WithList(e1, l, xs) && stack == old(stack)
        invariant i <= |xs| && |us| == i && Prepend(us, Ask(f, FLOATS, None, xs[i..], e1)) == Ask(f, FLOATS, None, xs, e)
        invariant found == (us != []) && count == i && sum == Total(us)
        invariant found && !kind.AverageOf? ==> best == Best(extreme, us)
        decreases |xs| - i
      {
        AskStep(f, FLOATS, None, xs, i, us, e1);
        var got := RunListCallback(w, c, sec, FLOATS, env.lists[l][i], l, ty, f, e1, xs);
        if got.Bad? { return Some(got); }
        var val := Number(got.value);
        SumsNext(us, got.value);
        BestNext(extreme, us, got.value);
        if !found { best, found := val, true; }
        else if kind.MinOf? { best := if val < best then val else best; }
        else if kind.MaxOf? { best := if best < val then val else best; }
        sum, count := sum + val, count + 1;
        us, e1, i := us + [got.value], f(xs[i], e1).env, i + 1;
      }
      AskEnds(f, FLOATS, None, xs, us, e1);
      if !found { return None; }
      r := Some(Good(Float(if kind.AverageOf? then sum / count as real else best)));
    }

    /** Where the first or the last answer yes was given. */
    method Find(w: World, c: Code, sec: Section, l: nat, ghost ty: Ty, first: bool, ghost f: Body, ghost e: Env, ghost xs: seq<Value>) returns (error: Option<Error>, at: Option<nat>)
      requires Shaped(c) && LeavesAlone(w, c, sec, l, ty, f, stack) && |stack| < w.capacity && Items(ty, xs) && l < |e.lists| && env == WithList(e, l, xs)
      modifies this
      ensures match Ask(f, BOOLS, if first then Some(Bool(true)) else None, xs, e)
        case Broke(err) => error == Some(err)
        case Replies(vs, e') => error == None && at == LastYes(vs) && stack == old(stack) && l < |e'.lists| && env == WithList(e', l, xs)
    {
      hide LeavesAlone, Ask, LastYes;
      ghost var stop := if first then Some(Bool(true)) else None;
      ghost var us: seq<Value>, e1 := [], e;
      var i := 0;
      at, error := None, None;
      AskStarts(f, BOOLS, stop, xs, e);
      LastYesNone(us);
      while i < |env.lists[l]|
        invariant l < |e1.lists| && |e1.lists| == |env.lists| && env == WithList(e1, l, xs) && stack == old(stack)
        invariant i <= |xs| && |us| == i && Prepend(us, Ask(f, BOOLS, stop, xs[i..], e1)) == Ask(f, BOOLS, stop, xs, e)
        invariant at == LastYes(us) && error == None
        decreases |xs| - i
      {
        AskStep(f, BOOLS, stop, xs, i, us, e1);
        var got := RunListCallback(w, c, sec, BOOLS, env.lists[l][i], l, ty, f, e1, xs);
        if got.Bad? { return Some(got.error), None; }
        LastYesNext(us, got.value);
        if Yes(got.value) { at := Some(i); }
        us, e1, i := us + [got.value], f(xs[i], e1).env, i + 1;
        if Yes(got.value) && first { return; }
      }
      AskEnds(f, BOOLS, stop, xs, us, e1);
    }

    /** Replaces every item by its answer; all answers have the type of the first. */
    method MapList(w: World, c: Code, sec: Section, l: nat, ghost ty: Ty, ghost f: Body, ghost e: Env, ghost xs: seq<Value>) returns (error: Option<Error>)
      requires Shaped(c) && LeavesAlone(w, c, sec, l, ty, f, stack) && |stack| < w.capacity && Items(ty, xs) && l < |e.lists| && env == WithList(e, l, xs)
      modifies this
      ensures match AskSame(f, xs, e)
        case Broke(err) => error == Some(err)
        case Replies(vs, e') => error == None && stack == old(stack) && l < |e'.lists| && env == WithList(e', l, vs)
    {
      hide LeavesAlone, Ask;
      var items: seq<Value>, mapped: Option<Ty> := [], None;
      ghost var e1 := e;
      var i := 0;
      AskSameStarts(f, xs, e);
      while i < |env.lists[l]|
        invariant l < |e1.lists| && |e1.lists| == |env.lists| && env == WithList(e1, l, xs) && stack == old(stack)
        invariant i <= |xs| && |items| == i && (mapped == None <==> i == 0) && (mapped.Some? ==> mapped == Some(TypeOf(items[0])))
        invariant i == 0 ==> e1 == e
        invariant i > 0 ==> Prepend(items, Ask(f, Some(Want(mapped.value, MIXED_TYPES)), None, xs[i..], e1)) == AskSame(f, xs, e)
        decreases |xs| - i
      {
        if i > 0 { AskStep(f, Some(Want(mapped.value, MIXED_TYPES)), None, xs, i, items, e1); }
        var got := RunListCallback(w, c, sec, None, env.lists[l][i], l, ty, f, e1, xs);
        if got.Bad? { return Some(got.error); }
        if mapped == None { mapped := Some(TypeOf(got.value)); }
        if mapped != Some(TypeOf(got.value)) { return Some(MIXED_TYPES); }
        e1 := f(xs[i], e1).env;
        items, i := items + [got.value], i + 1;
      }
      if i > 0 { AskEnds(f, Some(Want(mapped.value, MIXED_TYPES)), None, xs, items, e1); }
      env := env.(lists := env.lists[l := items]);
      error := None;
    }

    /** The pipelines that push a value: what the answers come to, or the default where nothing qualifies. */
    method Reduce(w: World, c: Code, value: Section, fallback: Section, kind: Kind, l: nat, ghost ty: Ty, ghost f: Body, ghost g: Fallback, ghost e: Env, ghost xs: seq<Value>)
      returns (error: Option<Error>)
      requires Asks(kind) && !kind.Filter? && !kind.MapTo?
      requires Shaped(c) && |stack| < w.capacity && l < |e.lists| && env == WithList(e, l, xs)
      requires LeavesAlone(w, c, value, l, ty, f, stack) && Items(ty, xs) && (HasDefault(kind) ==> DefaultsAlone(w, c, fallback, l, g, stack))
      modifies this
      ensures match Answered(kind, f, xs, e)
        case Broke(err) => error == Some(err)
        case Replies(vs, e') => Pushed(Concludes(kind, g, xs, vs, e'), l, old(stack), error)
    {
      hide LeavesAlone, DefaultsAlone, Ask, Total, Best, LastYes, CountYes;
      var result: Option<Got> := None;
      if kind.AnyOf? || kind.NoneOf? || kind.AllOf? {
        var got := Meets(w, c, value, l, ty, !kind.AllOf?, f, e, xs);
        result := Some(if kind.AnyOf? then got else Negated(got));
      } else if kind.CountIf? || kind.SumOf? {
        var got := AddUp(w, c, value, l, ty, kind.CountIf?, f, e, xs);
        result := Some(got);
      } else if kind.FirstOf? || kind.LastOf? {
        var at;
        error, at := Find(w, c, value, l, ty, kind.FirstOf?, f, e, xs);
        if error.Some? { return; }
        if at.Some? && at.value < |env.lists[l]| { result := Some(Good(env.lists[l][at.value])); }
      } else {
        result := Measure(w, c, value, l, ty, kind, f, e, xs);
      }
      if result == None {
        var got := RunDefaultCallback(w, c, fallback, l, g, Answered(kind, f, xs, e).env, xs);
        result := Some(got);
      }
      if result.value.Bad? { return Some(result.value.error); }
      stack := stack + [result.value.value];
      error := None;
    }

    /** The state is what the ending says, or the error is. */
    ghost predicate Pushed(n: Ending, l: nat, before: seq<Value>, error: Option<Error>)
      reads this
    {
      match n
      case Fails(err) => error == Some(err)
      case Leaves(ys, v, e) =>
        error == None && l < |e.lists| && env == WithList(e, l, ys) && stack == before + if v.Some? then [v.value] else []
    }

    /**
      The opcode at `pc`, on the lists of the frame that start at `base`: its sections are
      where its data slots say, it leaves the list and at most one value on the stack, and
      execution resumes behind its last section.
    */
    method Execute(w: World, c: Code, pc: nat, base: nat, types: int -> Option<Ty>, ghost list: nat, ghost ty: Ty, ghost f: Body, ghost g: Fallback, ghost e: Env, ghost xs: seq<Value>)
      returns (error: Option<Error>, next: int)
      requires Shaped(c) && pc < |c.cmds| && c.cmds[pc].op.Pipeline? && KindAt(c, pc).Some?
      requires |stack| < w.capacity && list == ListAt(c, pc, base) < |e.lists| && env == WithList(e, list, xs)
      requires Asks(KindAt(c, pc).value) ==> Items(ty, xs) && LeavesAlone(w, c, ValueSection(c, pc), list, ty, f, stack)
      requires HasDefault(KindAt(c, pc).value) ==> DefaultsAlone(w, c, DefaultSection(c, pc), list, g, stack)
      modifies this
      ensures Pushed(Means(KindAt(c, pc).value, f, g, types(AuxOf(c.cmds, pc)), xs, e), list, old(stack), error)
      ensures next == ResumeOf(c.cmds, pc)
    {
      hide LeavesAlone, DefaultsAlone, Ask, AskSame, Kept, Concludes;
      var kind, l, item := KindAt(c, pc).value, ListAt(c, pc, base), types(AuxOf(c.cmds, pc));
      error, next := None, ResumeOf(c.cmds, pc);
      match kind {
        case AddTo =>
          var got := RunDefaultCallback(w, c, DefaultSection(c, pc), l, g, e, xs);
          if got.Bad? { return Some(got.error), next; }
          if item.Some? && TypeOf(got.value) != item.value { return Some(WRONG_ITEM), next; }
          env := env.(lists := env.lists[l := env.lists[l] + [got.value]]);
        case Clear => env := env.(lists := env.lists[l := []]);
        case Filter =>
          error := FilterList(w, c, ValueSection(c, pc), l, ty, f, e, xs);
          ListConcludes(kind, f, g, xs, e);
        case MapTo =>
          error := MapList(w, c, ValueSection(c, pc), l, ty, f, e, xs);
          ListConcludes(kind, f, g, xs, e);
        case Count => stack := stack + [Float(|env.lists[l]| as real)];
        case IsEmpty => stack := stack + [Bool(env.lists[l] == [])];
        case _ => error := Reduce(w, c, ValueSection(c, pc), DefaultSection(c, pc), kind, l, ty, f, g, e, xs);
      }
    }
  }

  lemma ListConcludes(kind: Kind, f: Body, g: Fallback, xs: seq<Value>, e: Env)
    requires kind.Filter? || kind.MapTo?
    ensures var a := if kind.Filter? then Ask(f, BOOLS, None, xs, e) else AskSame(f, xs, e);
      && Answered(kind, f, xs, e) == a
      && (a.Replies? ==> Concludes(kind, g, xs, a.values, a.env) == Leaves(if kind.Filter? then Kept(xs, a.values) else a.values, None, a.env))
  {}

  function Negated(g: Got): Got { if g.Good? && g.value.Bool? then Good(Bool(!g.value.b)) else g }

  // --- what the opcode's argument and data slots say ---------------------------------------------------------

  function KindOf(code: int): Option<Kind> {
    if code == 0 then Some(AddTo) else if code == 1 then Some(Clear) else if code == 2 then Some(Filter) else if code == 3 then Some(MapTo)
    else if code == 4 then Some(Count) else if code == 5 then Some(IsEmpty) else if code == 6 then Some(AnyOf) else if code == 7 then Some(AllOf)
    else if code == 8 then Some(NoneOf) else if code == 9 then Some(CountIf) else if code == 10 then Some(SumOf) else if code == 11 then Some(MinOf)
    else if code == 12 then Some(MaxOf) else if code == 13 then Some(AverageOf) else if code == 14 then Some(FirstOf) else if code == 15 then Some(LastOf)
    else None
  }

  function KindAt(c: Code, pc: nat): Option<Kind>
    requires pc < |c.cmds|
  {
    KindOf(LowHalf(c.cmds[pc].arg))
  }

  /** The list of an opcode, in a frame whose lists start at `base`. */
  function ListAt(c: Code, pc: nat, base: nat): int
    requires pc < |c.cmds|
  {
    HighHalf(c.cmds[pc].arg) + base
  }

  /** Where the data slots of the opcode put its sections; a default section, when present, is the last one. */
  function ValueSection(c: Code, pc: nat): Section {
    var ranges := DataArg(c.cmds, pc + 1);
    Section(pc + LowHalf(ranges), pc + HighHalf(ranges))
  }

  function DefaultSection(c: Code, pc: nat): Section {
    var tail := DataArg(c.cmds, pc + 2);
    Section(pc + LowHalf(tail), pc + HighHalf(tail))
  }

  lemma AskSameStarts(f: Body, xs: seq<Value>, e: Env)
    ensures xs != [] && f(xs[0], e).Answer? ==>
      var a := f(xs[0], e); Prepend([a.value], Ask(f, Some(Want(TypeOf(a.value), MIXED_TYPES)), None, xs[1..], a.env)) == AskSame(f, xs, e)
  {}

  lemma SumsNone(us: seq<Value>)
    requires us == []
    ensures CountYes(us) == 0 && Total(us) == 0.0
  {}

  lemma SumsNext(us: seq<Value>, v: Value)
    ensures CountYes(us + [v]) == CountYes(us) + (if Yes(v) then 1 else 0) && Total(us + [v]) == Total(us) + Number(v)
  {
    assert (us + [v])[..|us|] == us;
  }

  lemma BestNext(k: Extreme, us: seq<Value>, v: Value)
    ensures us == [] ==> Best(k, us + [v]) == Number(v)
    ensures us != [] ==> Best(k, us + [v]) == if Beats(k, Number(v), Best(k, us)) then Number(v) else Best(k, us)
  {
    assert (us + [v])[..|us|] == us;
  }

  lemma LastYesNone(us: seq<Value>)
    requires us == []
    ensures LastYes(us) == None
  {}

  lemma LastYesNext(us: seq<Value>, v: Value)
    ensures LastYes(us + [v]) == if Yes(v) then Some(|us|) else LastYes(us)
  {
    assert (us + [v])[..|us|] == us;
  }

  lemma KeptNone(xs: seq<Value>, us: seq<Value>)
    requires us == []
    ensures Kept(xs[..0], us) == []
  {}

  lemma KeptNext(xs: seq<Value>, us: seq<Value>, i: nat, v: Value)
    requires i < |xs| && |us| == i
    ensures Kept(xs[..i + 1], us + [v]) == Kept(xs[..i], us) + if Yes(v) then [xs[i]] else []
  {
    assert xs[..i + 1][..i] == xs[..i] && (us + [v])[..i] == us;
  }
}
