/**
  `random` over the reals. The code generator leaves the choice to floating point: the
  last comparison could fail, and then no branch would run. With real arithmetic it never
  does, and exactly the branch the weights call for runs.
*/
module RandomChoice {
  import opened Machine
  import opened Lowering

  /** Float operations without rounding, and rolls in [0, 1). */
  ghost predicate RealArithmetic(w: World) {
    && (forall a: real, b: real :: w.add(a, b) == a + b)
    && (forall a: real, b: real :: w.mul(a, b) == a * b)
    && (forall a: real, b: real :: w.lessEq(a, b) <==> a <= b)
    && (forall seed: int, e: Env :: 0.0 <= w.chance(seed, e) < 1.0)
  }

  function Sum(ws: seq<real>, n: nat): real
    requires n <= |ws|
  {
    if n == 0 then 0.0 else Sum(ws, n - 1) + ws[n - 1]
  }

  lemma {:induction false} SumPrefix(a: seq<real>, b: seq<real>, n: nat)
    requires n <= |a| && n <= |b| && a[..n] == b[..n]
    ensures Sum(a, n) == Sum(b, n)
  {
    if n > 0 {
      assert a[..n - 1] == a[..n][..n - 1] && b[..n - 1] == b[..n][..n - 1];
      assert a[n - 1] == a[..n][n - 1] && b[n - 1] == b[..n][n - 1];
      SumPrefix(a, b, n - 1);
    }
  }

  /** The in-place totals are the prefix sums. */
  lemma {:induction false} CumulativeIsSum(w: World, ws: seq<real>, k: nat)
    requires RealArithmetic(w) && k < |ws|
    ensures Cumulative(w, ws)[k] == Through(ws, k)
    decreases |ws|
  {
    var init := ws[..|ws| - 1];
    if k < |ws| - 1 {
      CumulativeIsSum(w, init, k);
      SumPrefix(init, ws, k + 1);
    } else {
      var before, last := Cumulative(w, init), ws[k];
      assert Cumulative(w, ws)[k] == if before == [] then last else w.add(last, Last(before));
      assert Through(ws, k) == Sum(ws, k) + last;
      if k > 0 {
        CumulativeIsSum(w, init, k - 1);
        SumPrefix(init, ws, k);
        assert Last(before) == Sum(ws, k);
      } else {
        assert Sum(ws, 0) == 0.0;
      }
    }
  }

  predicate NonNegative(ws: seq<real>) { forall i :: 0 <= i < |ws| ==> ws[i] >= 0.0 }

  lemma {:induction false} SumNonNegative(ws: seq<real>, n: nat)
    requires NonNegative(ws) && n <= |ws|
    ensures Sum(ws, n) >= 0.0
  {
    if n > 0 { SumNonNegative(ws, n - 1); }
  }

  /** The weight of the branches up to and including the i-th. */
  function Through(ws: seq<real>, i: nat): real
    requires i < |ws|
  {
    Sum(ws, i + 1)
  }

  /** `i` is the first branch whose cumulative weight reaches the threshold. */
  ghost predicate First(ws: seq<real>, threshold: real, i: nat) {
    && i < |ws| && Through(ws, i) >= threshold
    && forall j: nat :: j < i ==> Through(ws, j) < threshold
  }

  lemma FirstUnique(ws: seq<real>, threshold: real, i: nat, j: nat)
    requires First(ws, threshold, i) && First(ws, threshold, j)
    ensures i == j
  {}

  lemma {:induction false} FirstFrom(ws: seq<real>, threshold: real, k: nat) returns (i: nat)
    requires k < |ws| && Sum(ws, |ws|) >= threshold
    requires forall j: nat :: j < k ==> Through(ws, j) < threshold
    ensures k <= i && First(ws, threshold, i)
    decreases |ws| - k
  {
    if Through(ws, k) >= threshold { i := k; }
    else { i := FirstFrom(ws, threshold, k + 1); }
  }

  function BodyAt(p: Parts, i: nat): Expr
    requires i < CountParts(p)
  {
    if i == 0 then p.body else BodyAt(p.rest, i - 1)
  }

  lemma {:induction false} ChosenIs(w: World, exp: seq<Ty>, p: Parts, cums: seq<real>, k: nat, roll: real, i: nat, sc: seq<Value>, e: Env)
    requires k <= i < |cums| == k + CountParts(p)
    requires w.lessEq(roll, cums[i]) && forall j :: k <= j < i ==> !w.lessEq(roll, cums[j])
    ensures Chosen(w, exp, p, cums, k, roll, sc, e) == Converted(w, exp, Meaning(w, BodyAt(p, i - k), sc, e))
    decreases p
  {
    hide Meaning;
    if k < i { ChosenIs(w, exp, p.rest, cums, k + 1, roll, i, sc, e); }
  }

  /** Weights that passed their check are not negative. */
  lemma {:induction false} WeighedNonNegative(w: World, p: Parts, sc: seq<Value>, e: Env, ws: seq<real>)
    requires RealArithmetic(w) && NonNegative(ws)
    ensures var r := Weigh(w, p, sc, e, ws); r.Weighed? ==> NonNegative(r.ws) && |r.ws| == |ws| + CountParts(p)
    decreases p
  {
    hide Holds;
    if p.Part? {
      var a := Converted(w, [TFloat], Holds(w, p.test, sc, e));
      if a.Gives? && |a.values| == 1 && a.values[0].Float? && w.lessEq(0.0, a.values[0].r) {
        WeighedNonNegative(w, p.rest, sc, a.env, ws + [a.values[0].r]);
      }
    }
  }

  /** The roll scaled to the total weight. */
  function Threshold(ws: seq<real>, roll: real): real { Scaled(roll, Sum(ws, |ws|)) }

  function Scaled(roll: real, total: real): real { roll * total }

  lemma ThresholdReached(ws: seq<real>, roll: real)
    requires NonNegative(ws) && 0.0 <= roll < 1.0
    ensures 0.0 <= Threshold(ws, roll) <= Sum(ws, |ws|)
  {
    hide Sum, NonNegative, Scaled;
    SumNonNegative(ws, |ws|);
    Shrinks(Sum(ws, |ws|), roll);
  }

  lemma Shrinks(total: real, roll: real)
    requires total >= 0.0 && 0.0 <= roll < 1.0
    ensures 0.0 <= Scaled(roll, total) <= total
  {
    ProductNonNegative(roll, total);
    ProductNonNegative(1.0 - roll, total);
    assert (1.0 - roll) * total == total - roll * total;
  }

  lemma ProductNonNegative(a: real, b: real)
    requires a >= 0.0 && b >= 0.0
    ensures a * b >= 0.0
  {}

  /** The branch the comparisons of the running totals pick, given weights that passed their check. */
  lemma PickIs(w: World, x: Expr, ws: seq<real>, roll: real, sc: seq<Value>, e: Env) returns (i: nat)
    requires RealArithmetic(w) && x.Random? && |ws| == CountParts(x.branches) > 0 && NonNegative(ws) && 0.0 <= roll < 1.0
    ensures i < CountParts(x.branches) && First(ws, Threshold(ws, roll), i)
    ensures Chosen(w, x.exp, x.branches, Cumulative(w, ws), 0, w.mul(roll, Last(Cumulative(w, ws))), sc, e) ==
            Converted(w, x.exp, Meaning(w, BodyAt(x.branches, i), sc, e))
  {
    hide Chosen, Meaning, Sum, Cumulative;
    var cums, total := Cumulative(w, ws), Sum(ws, |ws|);
    var t := Threshold(ws, roll);
    ThresholdReached(ws, roll);
    i := FirstFrom(ws, t, 0);
    forall k: nat | k < |ws| ensures cums[k] == Through(ws, k) { CumulativeIsSum(w, ws, k); }
    assert Last(cums) == Through(ws, |ws| - 1) == total;
    assert w.mul(roll, Last(cums)) == t;
    forall j: nat | j < i ensures !w.lessEq(t, cums[j]) { assert Through(ws, j) < t; }
    ChosenIs(w, x.exp, x.branches, cums, 0, t, i, sc, e);
  }

  /**
    Once the weights are computed, `random` runs exactly one body: that of the first branch
    whose cumulative weight reaches roll times total.
  */
  lemma RandomRunsFirst(w: World, x: Expr, sc: seq<Value>, e: Env) returns (i: nat)
    requires RealArithmetic(w) && x.Random? && x.branches != End && Weigh(w, x.branches, sc, e, []).Weighed?
    ensures i < CountParts(x.branches)
    ensures var r := Weigh(w, x.branches, sc, e, []);
      && |r.ws| == CountParts(x.branches) && NonNegative(r.ws)
      && First(r.ws, Threshold(r.ws, w.chance(x.seed, e)), i)
      && (forall j: nat :: First(r.ws, Threshold(r.ws, w.chance(x.seed, e)), j) ==> j == i)
      && Meaning(w, x, sc, e) == Converted(w, x.exp, Meaning(w, BodyAt(x.branches, i), sc, r.env))
  {
    hide Weigh, Chosen, Sum, Cumulative, BodyAt;
    WeighedNonNegative(w, x.branches, sc, e, []);
    var r := Weigh(w, x.branches, sc, e, []);
    i := PickIs(w, x, r.ws, w.chance(x.seed, e), sc, r.env);
    RandomMeaning(w, x, sc, e);
    var threshold := Threshold(r.ws, w.chance(x.seed, e));
    forall j: nat | First(r.ws, threshold, j) ensures j == i { FirstUnique(r.ws, threshold, j, i); }
  }

  lemma RandomMeaning(w: World, x: Expr, sc: seq<Value>, e: Env)
    requires x.Random? && Weigh(w, x.branches, sc, e, []).Weighed? && Weigh(w, x.branches, sc, e, []).ws != []
    ensures var r := Weigh(w, x.branches, sc, e, []);
      Meaning(w, x, sc, e) == Chosen(w, x.exp, x.branches, Cumulative(w, r.ws), 0, w.mul(w.chance(x.seed, e), Last(Cumulative(w, r.ws))), sc, r.env)
  {}

  /** A branch of weight zero runs exactly when it is the first one and the scaled roll is zero. */
  lemma ZeroWeightRuns(ws: seq<real>, roll: real, i: nat)
    requires NonNegative(ws) && 0.0 <= roll < 1.0 && i < |ws| && ws[i] == 0.0
    ensures First(ws, Threshold(ws, roll), i) <==> i == 0 && Threshold(ws, roll) == 0.0
  {
    hide Threshold;
    ThresholdReached(ws, roll);
    assert Through(ws, i) == Sum(ws, i) + ws[i];
    if i > 0 { assert Through(ws, i - 1) == Sum(ws, i); }
    else { assert Sum(ws, 0) == 0.0; }
  }
}
