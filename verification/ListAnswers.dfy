/**
  What a list pipeline comes to, from the plain answers of its callback: numbers as reals,
  truth values as booleans, each by its own definition.
*/
module ListAnswers {
  import opened Machine
  import opened ListPipelines

  // --- the answers ----------------------------------------------------------------------------------

  /** The callback answers the items in order with `vs`, from one environment to the next. */
  ghost predicate Gives(f: Body, xs: seq<Value>, vs: seq<Value>, es: seq<Env>) {
    |vs| == |xs| && |es| == |xs| + 1 && forall i :: 0 <= i < |xs| ==> f(xs[i], es[i]) == Answer(vs[i], es[i + 1])
  }

  function Reals(rs: seq<real>): (vs: seq<Value>)
    ensures |vs| == |rs|
  {
    seq(|rs|, i requires 0 <= i < |rs| => Float(rs[i]))
  }

  function Truths(bs: seq<bool>): (vs: seq<Value>)
    ensures |vs| == |bs|
  {
    seq(|bs|, i requires 0 <= i < |bs| => Bool(bs[i]))
  }

  lemma GivesOn(f: Body, xs: seq<Value>, vs: seq<Value>, es: seq<Env>)
    requires Gives(f, xs, vs, es) && xs != []
    ensures f(xs[0], es[0]) == Answer(vs[0], es[1]) && Gives(f, xs[1..], vs[1..], es[1..])
  {
    forall i | 0 <= i < |xs| - 1 ensures f(xs[1..][i], es[1..][i]) == Answer(vs[1..][i], es[1..][i + 1]) {
      assert f(xs[i + 1], es[i + 1]) == Answer(vs[i + 1], es[i + 2]);
    }
  }

  lemma GivesSizes(f: Body, xs: seq<Value>, vs: seq<Value>, es: seq<Env>)
    requires Gives(f, xs, vs, es)
    ensures |vs| == |xs| && |es| == |xs| + 1
  {}

  /** The first `n` items are asked: all of them, or those up to the first answer that stops. */
  lemma {:induction false} AskedUpTo(f: Body, want: Option<Want>, stop: Option<Value>, xs: seq<Value>, vs: seq<Value>, es: seq<Env>, n: nat)
    requires Gives(f, xs, vs, es) && n <= |xs| && forall i :: 0 <= i < |xs| ==> !Unwanted(want, vs[i])
    requires forall i :: 0 <= i < n - 1 ==> stop != Some(vs[i])
    requires n < |xs| ==> n > 0 && stop == Some(vs[n - 1])
    ensures |vs| == |xs| && |es| == |xs| + 1 && Ask(f, want, stop, xs, es[0]) == Replies(vs[..n], es[n])
    decreases |xs|
  {
    hide Gives, Unwanted;
    GivesSizes(f, xs, vs, es);
    if xs != [] {
      GivesOn(f, xs, vs, es);
      if stop != Some(vs[0]) { AskedUpTo(f, want, stop, xs[1..], vs[1..], es[1..], n - 1); }
      assert [vs[0]] + vs[1..][..n - 1] == vs[..n];
    }
  }

  // --- sums, averages, extremes ---------------------------------------------------------------------

  function SumOfReals(rs: seq<real>): real { if rs == [] then 0.0 else rs[0] + SumOfReals(rs[1..]) }

  lemma {:induction false} SumFromEnd(rs: seq<real>)
    requires rs != []
    ensures SumOfReals(rs) == SumOfReals(rs[..|rs| - 1]) + rs[|rs| - 1]
    decreases |rs|
  {
    if |rs| > 1 {
      SumFromEnd(rs[1..]);
      assert rs[1..][..|rs| - 2] == rs[..|rs| - 1][1..];
    }
  }

  lemma {:induction false} TotalIsSum(rs: seq<real>)
    ensures ListPipelines.Total(Reals(rs)) == SumOfReals(rs)
    decreases |rs|
  {
    if rs != [] {
      var front := rs[..|rs| - 1];
      assert Reals(rs)[..|rs| - 1] == Reals(front);
      TotalIsSum(front);
      SumFromEnd(rs);
    }
  }

  /** It is one of the numbers, and as good as every one of them. */
  predicate Extremal(k: Extreme, rs: seq<real>, m: real) {
    m in rs && forall r :: r in rs ==> if k.Smallest? then m <= r else r <= m
  }

  lemma BestIsExtremal(k: Extreme, rs: seq<real>)
    requires rs != []
    ensures Extremal(k, rs, Best(k, Reals(rs)))
  {
    hide Best;
    var vs := Reals(rs);
    BestIs(k, vs);
    var i :| 0 <= i < |vs| && Number(vs[i]) == Best(k, vs);
    assert rs[i] == Best(k, vs);
    forall r | r in rs ensures if k.Smallest? then Best(k, vs) <= r else r <= Best(k, vs) {
      var j :| 0 <= j < |rs| && rs[j] == r;
      assert Number(vs[j]) == r;
    }
  }

  lemma NumbersConclude(kind: Kind, f: Body, g: Fallback, item: Option<Ty>, xs: seq<Value>, rs: seq<real>, es: seq<Env>)
    requires Gives(f, xs, Reals(rs), es) && (kind == SumOf || kind == MinOf || kind == MaxOf || kind == AverageOf)
    ensures |rs| == |xs| && |es| == |xs| + 1 && Means(kind, f, g, item, xs, es[0]) == Concludes(kind, g, xs, Reals(rs), es[|xs|])
  {
    hide Ask, Concludes;
    GivesSizes(f, xs, Reals(rs), es);
    AskedUpTo(f, FLOATS, None, xs, Reals(rs), es, |xs|);
    assert Reals(rs)[..|xs|] == Reals(rs);
  }

  /** What a pipeline over numbers pushes; the list and the environment are left as the callbacks left them. */
  lemma NumbersMean(f: Body, g: Fallback, item: Option<Ty>, xs: seq<Value>, rs: seq<real>, es: seq<Env>) returns (average: real, least: real, greatest: real)
    requires Gives(f, xs, Reals(rs), es) && rs != []
    ensures |rs| == |xs| && |es| == |xs| + 1
    ensures Means(SumOf, f, g, item, xs, es[0]) == Leaves(xs, Some(Float(SumOfReals(rs))), es[|xs|])
    ensures Means(AverageOf, f, g, item, xs, es[0]) == Leaves(xs, Some(Float(average)), es[|xs|]) && average * |rs| as real == SumOfReals(rs)
    ensures Means(MinOf, f, g, item, xs, es[0]) == Leaves(xs, Some(Float(least)), es[|xs|]) && Extremal(Smallest, rs, least)
    ensures Means(MaxOf, f, g, item, xs, es[0]) == Leaves(xs, Some(Float(greatest)), es[|xs|]) && Extremal(Greatest, rs, greatest)
  {
    hide Means, Best, ListPipelines.Total, SumOfReals, Extremal;
    NumbersConclude(SumOf, f, g, item, xs, rs, es);
    NumbersConclude(AverageOf, f, g, item, xs, rs, es);
    NumbersConclude(MinOf, f, g, item, xs, rs, es);
    NumbersConclude(MaxOf, f, g, item, xs, rs, es);
    TotalIsSum(rs);
    average, least, greatest := SumOfReals(rs) / |rs| as real, Best(Smallest, Reals(rs)), Best(Greatest, Reals(rs));
    BestIsExtremal(Smallest, rs);
    BestIsExtremal(Greatest, rs);
  }

  /** An empty list adds up to 0 and has no least, greatest or average item: the default is taken. */
  lemma NothingMeans(kind: Kind, f: Body, g: Fallback, item: Option<Ty>, e: Env)
    ensures Means(SumOf, f, g, item, [], e) == Leaves([], Some(Float(0.0)), e)
    ensures kind == MinOf || kind == MaxOf || kind == AverageOf || kind == FirstOf || kind == LastOf ==> Means(kind, f, g, item, [], e) == OrDefault([], g, e)
  {}

  // --- truth values -----------------------------------------------------------------------------------

  function CountHolding(bs: seq<bool>): nat { if bs == [] then 0 else (if bs[0] then 1 else 0) + CountHolding(bs[1..]) }

  /** The items at the places that hold, in order. */
  function Holding(xs: seq<Value>, bs: seq<bool>): seq<Value>
    requires |xs| == |bs|
  {
    if xs == [] then [] else (if bs[0] then [xs[0]] else []) + Holding(xs[1..], bs[1..])
  }

  lemma {:induction false} HoldingFromEnd(xs: seq<Value>, bs: seq<bool>)
    requires |xs| == |bs| > 0
    ensures var n := |xs| - 1;
      && Holding(xs, bs) == Holding(xs[..n], bs[..n]) + (if bs[n] then [xs[n]] else [])
      && CountHolding(bs) == CountHolding(bs[..n]) + if bs[n] then 1 else 0
    decreases |xs|
  {
    var n := |xs| - 1;
    if n > 0 {
      HoldingFromEnd(xs[1..], bs[1..]);
      assert xs[1..][..n - 1] == xs[..n][1..] && bs[1..][..n - 1] == bs[..n][1..];
    }
  }

  lemma {:induction false} KeptIsHolding(xs: seq<Value>, bs: seq<bool>)
    requires |xs| == |bs|
    ensures Kept(xs, Truths(bs)) == Holding(xs, bs) && CountYes(Truths(bs)) == CountHolding(bs)
    decreases |xs|
  {
    if xs != [] {
      var n := |xs| - 1;
      assert Truths(bs)[..n] == Truths(bs[..n]);
      KeptIsHolding(xs[..n], bs[..n]);
      HoldingFromEnd(xs, bs);
    }
  }

  /** `filter` keeps exactly the items that hold, `count` says how many they are. */
  lemma ChoicesMean(f: Body, g: Fallback, item: Option<Ty>, xs: seq<Value>, bs: seq<bool>, es: seq<Env>)
    requires Gives(f, xs, Truths(bs), es)
    ensures |bs| == |xs| && |es| == |xs| + 1
    ensures Means(Filter, f, g, item, xs, es[0]) == Leaves(Holding(xs, bs), None, es[|xs|])
    ensures Means(CountIf, f, g, item, xs, es[0]) == Leaves(xs, Some(Float(CountHolding(bs) as real)), es[|xs|])
  {
    hide Ask, Kept, CountYes;
    GivesSizes(f, xs, Truths(bs), es);
    AskedUpTo(f, BOOLS, None, xs, Truths(bs), es, |xs|);
    assert Truths(bs)[..|xs|] == Truths(bs);
    KeptIsHolding(xs, bs);
  }

  /** The loops that stop early: at the first item that decides, or behind all of them. */
  lemma QuestionsMean(f: Body, g: Fallback, item: Option<Ty>, xs: seq<Value>, bs: seq<bool>, es: seq<Env>, k: nat, holds: bool)
    requires Gives(f, xs, Truths(bs), es) && |bs| == |xs| && |es| == |xs| + 1
    requires k <= |bs| && (forall i :: 0 <= i < k ==> bs[i] != holds) && (k < |bs| ==> bs[k] == holds)
    ensures var e := if k < |xs| then es[k + 1] else es[k];
      && (holds ==> Means(AnyOf, f, g, item, xs, es[0]) == Leaves(xs, Some(Bool(k < |xs|)), e))
      && (holds ==> Means(NoneOf, f, g, item, xs, es[0]) == Leaves(xs, Some(Bool(k == |xs|)), e))
      && (!holds ==> Means(AllOf, f, g, item, xs, es[0]) == Leaves(xs, Some(Bool(k == |xs|)), e))
      && (holds && k < |xs| ==> Means(FirstOf, f, g, item, xs, es[0]) == Leaves(xs, Some(xs[k]), e))
      && (holds && k == |xs| ==> Means(FirstOf, f, g, item, xs, es[0]) == OrDefault(xs, g, e))
  {
    hide Ask, LastYes;
    var n := if k < |xs| then k + 1 else k;
    AskedUpTo(f, BOOLS, Some(Bool(holds)), xs, Truths(bs), es, n);
    var vs := Truths(bs)[..n];
    assert forall i :: 0 <= i < k ==> vs[i] == Bool(!holds);
    if k < |xs| { assert vs[k] == Bool(holds); }
    if holds { LastAt(vs, k); }
  }

  /** `first` and `last` without a match. */
  function OrDefault(xs: seq<Value>, g: Fallback, e: Env): Ending {
    match g(e)
    case Answer(v, e') => Leaves(xs, Some(v), e')
    case Raise(err) => Fails(err)
  }

  lemma {:induction false} LastAt(vs: seq<Value>, k: nat)
    requires |vs| <= k + 1 && forall i :: 0 <= i < |vs| ==> (vs[i] == Bool(true) <==> i == k)
    ensures LastYes(vs) == if k < |vs| then Some(k) else None
    decreases |vs|
  {
    if vs != [] && |vs| <= k { LastAt(vs[..|vs| - 1], k); }
  }

  lemma {:induction false} LastFrom(vs: seq<Value>, k: nat)
    requires k <= |vs| && (k < |vs| ==> vs[k] == Bool(true)) && forall i :: k < i < |vs| ==> vs[i] != Bool(true)
    requires k == |vs| ==> forall i :: 0 <= i < |vs| ==> vs[i] != Bool(true)
    ensures LastYes(vs) == if k < |vs| then Some(k) else None
    decreases |vs|
  {
    if vs != [] && k != |vs| - 1 { LastFrom(vs[..|vs| - 1], if k == |vs| then k - 1 else k); }
  }

  /** `last` asks every item, and leaves the last one that holds. */
  lemma LastMeans(f: Body, g: Fallback, item: Option<Ty>, xs: seq<Value>, bs: seq<bool>, es: seq<Env>, k: nat)
    requires Gives(f, xs, Truths(bs), es) && |bs| == |xs| && |es| == |xs| + 1
    requires k <= |bs| && (k < |bs| ==> bs[k]) && (forall i :: k < i < |bs| ==> !bs[i]) && (k == |bs| ==> forall i :: 0 <= i < |bs| ==> !bs[i])
    ensures Means(LastOf, f, g, item, xs, es[0]) == if k < |xs| then Leaves(xs, Some(xs[k]), es[|xs|]) else OrDefault(xs, g, es[|xs|])
  {
    hide Ask, LastYes;
    AskedUpTo(f, BOOLS, None, xs, Truths(bs), es, |xs|);
    assert Truths(bs)[..|xs|] == Truths(bs);
    LastFrom(Truths(bs), k);
  }

  // --- the rest -----------------------------------------------------------------------------------------

  /** `map` leaves the answers, all of one type. */
  lemma MapMeans(f: Body, g: Fallback, item: Option<Ty>, xs: seq<Value>, vs: seq<Value>, es: seq<Env>, ty: Ty)
    requires Gives(f, xs, vs, es) && forall i :: 0 <= i < |vs| ==> TypeOf(vs[i]) == ty
    ensures |es| == |xs| + 1 && Means(MapTo, f, g, item, xs, es[0]) == Leaves(vs, None, es[|xs|])
  {
    hide Ask;
    GivesSizes(f, xs, vs, es);
    if xs != [] {
      GivesOn(f, xs, vs, es);
      AskedUpTo(f, Some(Want(ty, MIXED_TYPES)), None, xs[1..], vs[1..], es[1..], |xs| - 1);
      assert [vs[0]] + vs[1..][..|xs| - 1] == vs;
    }
  }

  /** The pipelines that ask nothing. */
  lemma PlainMean(f: Body, g: Fallback, item: Option<Ty>, xs: seq<Value>, e: Env)
    ensures Means(Clear, f, g, item, xs, e) == Leaves([], None, e)
    ensures Means(Count, f, g, item, xs, e) == Leaves(xs, Some(Float(|xs| as real)), e)
    ensures Means(IsEmpty, f, g, item, xs, e) == Leaves(xs, Some(Bool(|xs| == 0)), e)
    ensures forall v, e' :: g(e) == Answer(v, e') && (item == None || item == Some(TypeOf(v))) ==>
      exists ys :: Means(AddTo, f, g, item, xs, e) == Leaves(ys, None, e') && |ys| == |xs| + 1 && ys[..|xs|] == xs && ys[|xs|] == v
  {
    forall v, e' | g(e) == Answer(v, e') && (item == None || item == Some(TypeOf(v)))
      ensures exists ys :: Means(AddTo, f, g, item, xs, e) == Leaves(ys, None, e') && |ys| == |xs| + 1 && ys[..|xs|] == xs && ys[|xs|] == v
    {
      assert Means(AddTo, f, g, item, xs, e) == Leaves(xs + [v], None, e') && (xs + [v])[..|xs|] == xs;
    }
  }

  // --- answers that end a pipeline with an error -----------------------------------------------------------

  lemma {:induction false} AskBreaks(f: Body, want: Option<Want>, stop: Option<Value>, xs: seq<Value>, vs: seq<Value>, es: seq<Env>, k: nat)
    requires k < |xs| && Gives(f, xs[..k], vs, es) && forall i :: 0 <= i < k ==> !Unwanted(want, vs[i]) && stop != Some(vs[i])
    ensures |es| == k + 1
    ensures match f(xs[k], es[k])
      case Raise(err) => Ask(f, want, stop, xs, es[0]) == Broke(err)
      case Answer(v, _) => Unwanted(want, v) ==> Ask(f, want, stop, xs, es[0]) == Broke(want.value.otherwise)
    decreases k
  {
    hide Gives, Unwanted;
    GivesSizes(f, xs[..k], vs, es);
    if k > 0 {
      GivesOn(f, xs[..k], vs, es);
      assert xs[..k][1..] == xs[1..][..k - 1];
      AskBreaks(f, want, stop, xs[1..], vs[1..], es[1..], k - 1);
    }
  }

  /** The answer has the type the pipeline asks for, and does not end it. */
  predicate Proceeds(kind: Kind, first: Value, v: Value) {
    match kind
    case AnyOf => v == Bool(false)
    case NoneOf => v == Bool(false)
    case FirstOf => v == Bool(false)
    case AllOf => v == Bool(true)
    case Filter => v.Bool?
    case CountIf => v.Bool?
    case LastOf => v.Bool?
    case MapTo => TypeOf(v) == TypeOf(first)
    case _ => v.Float?
  }

  /** The answer has another type than the pipeline asks for; `map` asks for that of the first. */
  predicate Misfits(kind: Kind, first: Option<Value>, v: Value) {
    if kind.MapTo? then first.Some? && TypeOf(v) != TypeOf(first.value)
    else if kind.SumOf? || kind.MinOf? || kind.MaxOf? || kind.AverageOf? then !v.Float?
    else !v.Bool?
  }

  /** The first callback that fails, or answers with another type, ends the pipeline with its error. */
  lemma FailuresMean(kind: Kind, f: Body, g: Fallback, item: Option<Ty>, xs: seq<Value>, vs: seq<Value>, es: seq<Env>, k: nat)
    requires !kind.AddTo? && !kind.Clear? && !kind.Count? && !kind.IsEmpty?
    requires k < |xs| && Gives(f, xs[..k], vs, es) && |vs| == k && |es| == k + 1 && forall i :: 0 <= i < k ==> Proceeds(kind, vs[0], vs[i])
    ensures match f(xs[k], es[k])
      case Raise(err) => Means(kind, f, g, item, xs, es[0]) == Fails(err)
      case Answer(v, _) =>
        Misfits(kind, if k == 0 then None else Some(vs[0]), v) ==> Means(kind, f, g, item, xs, es[0]) == Fails(if kind.MapTo? then MIXED_TYPES else TypeMismatch)
  {
    hide Ask, Gives, Concludes;
    if kind.MapTo? {
      if k > 0 {
        GivesOn(f, xs[..k], vs, es);
        assert xs[..k][1..] == xs[1..][..k - 1];
        AskBreaks(f, Some(Want(TypeOf(vs[0]), MIXED_TYPES)), None, xs[1..], vs[1..], es[1..], k - 1);
      }
    } else {
      var stop := if kind.AnyOf? || kind.NoneOf? || kind.FirstOf? then Some(Bool(true)) else if kind.AllOf? then Some(Bool(false)) else None;
      AskBreaks(f, if kind.SumOf? || kind.MinOf? || kind.MaxOf? || kind.AverageOf? then FLOATS else BOOLS, stop, xs, vs, es, k);
    }
  }

  /** A value of another type is not added. */
  lemma AddingFails(f: Body, g: Fallback, ty: Ty, xs: seq<Value>, e: Env)
    ensures match g(e)
      case Raise(err) => Means(AddTo, f, g, Some(ty), xs, e) == Fails(err)
      case Answer(v, _) => TypeOf(v) != ty ==> Means(AddTo, f, g, Some(ty), xs, e) == Fails(WRONG_ITEM)
  {}

  // --- the numbers of the operations -------------------------------------------------------------------------

  const KINDS := [AddTo, Clear, Filter, MapTo, Count, IsEmpty, AnyOf, AllOf, NoneOf, CountIf, SumOf, MinOf, MaxOf, AverageOf, FirstOf, LastOf]

  lemma KindsAre(code: int)
    ensures KindOf(code) == if 0 <= code < |KINDS| then Some(KINDS[code]) else None
  {}
}
