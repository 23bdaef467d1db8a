/**
  Overload choice: the viable candidates are compared one after the other, and the winner
  is the least by cost, then exact return type, then rank; a tie at the top is an error.
*/
module Overloads {
  import opened Machine

  /** What a candidate that compiled is judged by. */
  datatype Candidate = Candidate(cost: nat, exactReturn: bool, rank: int)

  predicate Better(a: Candidate, b: Candidate) {
    if a.cost != b.cost then a.cost < b.cost
    else if a.exactReturn != b.exactReturn then a.exactReturn
    else a.rank < b.rank
  }

  datatype Choice = Chosen(index: nat) | Ambiguous | NoneViable

  /** A candidate no other viable one beats or equals. */
  ghost predicate Winner(cs: seq<Option<Candidate>>, i: nat) {
    && i < |cs| && cs[i].Some?
    && forall j :: 0 <= j < |cs| && j != i && cs[j].Some? ==> Better(cs[i].value, cs[j].value)
  }

  /** Two candidates that equal each other and that nothing beats. */
  ghost predicate Tied(cs: seq<Option<Candidate>>, i: nat, j: nat) {
    && i < j < |cs| && cs[i].Some? && cs[j] == cs[i]
    && forall k :: 0 <= k < |cs| && cs[k].Some? ==> !Better(cs[k].value, cs[i].value)
  }

  /** At most one winner, and none beside a tie. */
  lemma WinnerUnique(cs: seq<Option<Candidate>>, i: nat, j: nat, k: nat)
    requires Winner(cs, i)
    ensures Winner(cs, j) ==> i == j
    ensures !Tied(cs, j, k)
  {}

  /** The winner costs least; among those that cost as little it returns exactly what is expected if any does, and is the only one of its rank or below. */
  lemma WinnerIs(cs: seq<Option<Candidate>>, i: nat)
    ensures Winner(cs, i) <==>
      && i < |cs| && cs[i].Some?
      && var c := cs[i].value;
         && (forall d :: Some(d) in cs ==> c.cost <= d.cost)
         && (forall d :: Some(d) in cs && d.cost == c.cost && d.exactReturn ==> c.exactReturn)
         && (forall j :: 0 <= j < |cs| && j != i && cs[j].Some? && cs[j].value.cost == c.cost && cs[j].value.exactReturn == c.exactReturn ==> c.rank < cs[j].value.rank)
  {
    if Winner(cs, i) {
      var c := cs[i].value;
      forall d | Some(d) in cs ensures c.cost <= d.cost && (d.cost == c.cost && d.exactReturn ==> c.exactReturn) {
        var j :| 0 <= j < |cs| && cs[j] == Some(d);
      }
    } else if i < |cs| && cs[i].Some? {
      var j :| 0 <= j < |cs| && j != i && cs[j].Some? && !Better(cs[i].value, cs[j].value);
      assert Some(cs[j].value) in cs;
    }
  }

  /** Rejected candidates are `None`. */
  method Choose(cs: seq<Option<Candidate>>) returns (r: Choice)
    ensures match r
      case Chosen(i) => Winner(cs, i)
      case Ambiguous => exists i: nat, j: nat :: Tied(cs, i, j)
      case NoneViable => forall i :: 0 <= i < |cs| ==> cs[i] == None
    ensures r == Ambiguous <==> exists i: nat, j: nat :: Tied(cs, i, j)
    ensures forall i: nat :: Winner(cs, i) ==> r == Chosen(i)
  {
    var best, tie: nat, ambiguous := -1, 0, false;
    for k := 0 to |cs|
      invariant -1 <= best < k
      invariant best < 0 ==> !ambiguous && forall j :: 0 <= j < k ==> cs[j] == None
      invariant best >= 0 ==> cs[best].Some? && forall j :: 0 <= j < k && cs[j].Some? ==> !Better(cs[j].value, cs[best].value)
      invariant best >= 0 && !ambiguous ==> forall j :: 0 <= j < k && j != best && cs[j].Some? ==> cs[j] != cs[best]
      invariant ambiguous ==> best >= 0 && best < tie < k && cs[tie] == cs[best]
    {
      if cs[k].Some? {
        var c := cs[k].value;
        if best < 0 || Better(c, cs[best].value) {
          best, ambiguous := k, false;
        } else if c.cost == cs[best].value.cost && c.exactReturn == cs[best].value.exactReturn && c.rank == cs[best].value.rank {
          tie, ambiguous := k, true;
        }
      }
    }
    if best < 0 { return NoneViable; }
    if ambiguous {
      assert Tied(cs, best, tie);
      r := Ambiguous;
    } else {
      assert Winner(cs, best);
      r := Chosen(best);
    }
    forall i: nat | Winner(cs, i) ensures r == Chosen(i) { WinnerUnique(cs, i, best, tie); }
    forall i: nat, j: nat | Tied(cs, i, j) ensures r == Ambiguous { if r.Chosen? { WinnerUnique(cs, best, i, j); } }
  }

  /** The order of registration does not matter: moving the candidates around moves the winner with them. */
  lemma OrderIrrelevant(cs: seq<Option<Candidate>>, ds: seq<Option<Candidate>>, at: seq<nat>)
    requires |at| == |cs| == |ds| && (forall i :: 0 <= i < |at| ==> at[i] < |at|)
    requires forall i, j :: 0 <= i < j < |at| ==> at[i] != at[j]
    requires forall i :: 0 <= i < |at| ==> ds[at[i]] == cs[i]
    requires forall j: nat :: j < |at| ==> j in at
    ensures forall i: nat :: i < |cs| ==> (Winner(cs, i) <==> Winner(ds, at[i]))
    ensures (exists i: nat, j: nat :: Tied(cs, i, j)) <==> (exists i: nat, j: nat :: Tied(ds, i, j))
  {
    forall i: nat | i < |cs| ensures Winner(cs, i) <==> Winner(ds, at[i]) { WinnerMoves(cs, ds, at, i); }
    if i: nat, j: nat :| Tied(cs, i, j) { var a, b := TieMoves(cs, ds, at, i, j); }
    if i: nat, j: nat :| Tied(ds, i, j) { TieMovesBack(cs, ds, at, i, j); }
  }

  lemma WinnerMoves(cs: seq<Option<Candidate>>, ds: seq<Option<Candidate>>, at: seq<nat>, i: nat)
    requires |at| == |cs| == |ds| && (forall i :: 0 <= i < |at| ==> at[i] < |at|) && i < |cs|
    requires forall i, j :: 0 <= i < j < |at| ==> at[i] != at[j]
    requires forall i :: 0 <= i < |at| ==> ds[at[i]] == cs[i]
    requires forall j: nat :: j < |at| ==> j in at
    ensures Winner(cs, i) <==> Winner(ds, at[i])
  {
    if Winner(cs, i) {
      forall j: nat | j < |ds| && j != at[i] && ds[j].Some? ensures Better(ds[at[i]].value, ds[j].value) {
        assert j in at;
        var k :| 0 <= k < |at| && at[k] == j;
      }
    }
    if Winner(ds, at[i]) {
      forall j: nat | j < |cs| && j != i && cs[j].Some? ensures Better(cs[i].value, cs[j].value) { assert at[j] != at[i]; }
    }
  }

  lemma TieMoves(cs: seq<Option<Candidate>>, ds: seq<Option<Candidate>>, at: seq<nat>, i: nat, j: nat) returns (a: nat, b: nat)
    requires |at| == |cs| == |ds| && (forall i :: 0 <= i < |at| ==> at[i] < |at|)
    requires forall i, j :: 0 <= i < j < |at| ==> at[i] != at[j]
    requires forall i :: 0 <= i < |at| ==> ds[at[i]] == cs[i]
    requires forall j: nat :: j < |at| ==> j in at
    requires Tied(cs, i, j)
    ensures Tied(ds, a, b)
  {
    a, b := if at[i] < at[j] then at[i] else at[j], if at[i] < at[j] then at[j] else at[i];
    forall k: nat | k < |ds| && ds[k].Some? ensures !Better(ds[k].value, ds[a].value) {
      assert k in at;
      var o :| 0 <= o < |at| && at[o] == k;
    }
  }

  lemma TieMovesBack(cs: seq<Option<Candidate>>, ds: seq<Option<Candidate>>, at: seq<nat>, i: nat, j: nat)
    requires |at| == |cs| == |ds| && (forall i :: 0 <= i < |at| ==> at[i] < |at|)
    requires forall i :: 0 <= i < |at| ==> ds[at[i]] == cs[i]
    requires forall j: nat :: j < |at| ==> j in at
    requires Tied(ds, i, j)
    ensures exists a: nat, b: nat :: Tied(cs, a, b)
  {
    assert i in at && j in at;
    var a :| 0 <= a < |at| && at[a] == i;
    var b :| 0 <= b < |at| && at[b] == j;
    var p, q: nat := if a < b then a else b, if a < b then b else a;
    forall k: nat | k < |cs| && cs[k].Some? ensures !Better(cs[k].value, cs[p].value) { assert ds[at[k]] == cs[k]; }
    assert Tied(cs, p, q);
  }
}
