/**
  Description nodes. The compiler appends a node behind the nodes of its children; the
  loader indexes them by the commands they span; `describe` walks them as a tree.
*/
module Descriptions {
  import opened Machine

  /** One node of the flat array: how many nodes it spans (itself last), its children, and its commands. */
  datatype Desc = Desc(size: nat, args: nat, start: nat, index: nat, custom: bool)

  // --- the tree behind the array ---------------------------------------------------------------

  datatype Tree = Node(kids: Forest, start: nat, index: nat, custom: bool)
  datatype Forest = Bare | Grown(before: Forest, last: Tree)

  function Width(f: Forest): nat { if f.Bare? then 0 else Width(f.before) + 1 }

  function Least(a: nat, b: nat): nat { if b < a then b else a }

  /** The first command of a node: its own, or the first one of a child. */
  function Earliest(t: Tree): nat
    decreases t
  {
    EarliestOf(t.kids, t.start)
  }

  function EarliestOf(f: Forest, start: nat): nat
    decreases f
  {
    match f
    case Bare => start
    case Grown(before, last) => EarliestOf(before, Least(start, Earliest(last)))
  }

  /** Children before their parent, from the first to the last. */
  function Post(f: Forest): seq<Desc> { if f.Bare? then [] else Post(f.before) + PostTree(f.last) }

  function PostTree(t: Tree): seq<Desc>
    decreases t, 1
  {
    Post(t.kids) + [Own(t)]
  }

  function Own(t: Tree): Desc
    decreases t, 0
  {
    Desc(|Post(t.kids)| + 1, Width(t.kids), Earliest(t), t.index, t.custom)
  }

  class Compiled {
    var descs: seq<Desc>

    constructor ()
      ensures descs == Post(Bare)
    {
      descs := [];
    }

    /**
      A node is finished: everything described since `start` becomes its children. It is
      appended, then looks back over the children's sizes to count them and to find its
      first command.
    */
    method Describe(ghost f: Forest, ghost kids: Forest, start: nat, own: nat, index: nat, custom: bool)
      requires descs == Post(f) + Post(kids) && start == |Post(f)|
      modifies this
      ensures descs == Post(Grown(f, Node(kids, own, index, custom)))
    {
      hide Post, Width, EarliestOf;
      ghost var before := descs;
      var size := |descs| - start + 1;
      descs := descs + [Desc(size, 0, own, index, custom)];
      var current := |descs| - 1;
      var offset, counter, first := 1, 0, own;
      ghost var rest := kids;
      while offset < size
        invariant 1 <= offset <= size == |Post(kids)| + 1 && current == |before| && descs == before + [Desc(size, 0, own, index, custom)]
        invariant |Post(rest)| == size - offset && before[..start + |Post(rest)|] == Post(f) + Post(rest)
        invariant counter + Width(rest) == Width(kids) && EarliestOf(rest, first) == EarliestOf(kids, own)
        decreases size - offset
      {
        var desc := descs[current - offset];
        LastOf(f, rest, before, current - offset);
        LastCounts(rest, first);
        first := Least(first, desc.start);
        offset := offset + desc.size;
        counter := counter + 1;
        rest := rest.before;
      }
      NoNodes(rest);
      BareCounts(first);
      NodeAppended(f, kids, own, index, custom);
      descs := descs[current := descs[current].(args := counter, start := first)];
      assert descs == before + [Desc(size, counter, first, index, custom)];
    }

    /** The children of a node, found from the last to the first by their sizes, then put in order. */
    method Children(ghost t: Tree, ghost base: nat, offset: nat) returns (children: seq<nat>)
      requires base + |PostTree(t)| == offset + 1 <= |descs| && descs[base..offset + 1] == PostTree(t)
      ensures children == Roots(t.kids, base)
    {
      hide Roots;
      NodeAt(t, descs, base, offset);
      var desc := descs[offset];
      var stackStart := if offset >= desc.size then offset - desc.size + 1 else 0;
      var childOffset := 1;
      children := [];
      ghost var rest := t.kids;
      while childOffset < desc.size
        invariant 1 <= childOffset <= desc.size && stackStart == base
        invariant base + |Post(rest)| == offset + 1 - childOffset && descs[base..base + |Post(rest)|] == Post(rest)
        invariant Roots(t.kids, base) == Roots(rest, base) + Reversed(children)
        decreases desc.size - childOffset
      {
        var child := offset - childOffset;
        RootAt(rest, descs, base, child);
        if child < stackStart { break; }
        ReversedGrows(children, child);
        children := children + [child];
        childOffset := childOffset + descs[child].size;
        rest := rest.before;
      }
      NoNodes(rest);
      RootsBare(base);
      children := Reversed(children);
    }

    /** The walk of `describe` from one node on: the node, then its children in order; a custom description hides them. */
    method Traverse(ghost t: Tree, ghost base: nat, offset: nat, nest: nat) returns (visited: seq<Visit>)
      requires base + |PostTree(t)| == offset + 1 <= |descs| && descs[base..offset + 1] == PostTree(t)
      ensures visited == Preorder(t, base, nest)
      decreases t
    {
      hide Roots, Kid, KidBase;
      NodeAt(t, descs, base, offset);
      visited := [Visit(offset, nest)];
      if descs[offset].custom { return; }
      var children := Children(t, base, offset);
      PreorderAll(t.kids, base, nest + 1);
      var k := 0;
      while k < |children|
        invariant k <= |children| && children == Roots(t.kids, base)
        invariant visited == [Visit(offset, nest)] + PreorderFirst(t.kids, k, base, nest + 1)
      {
        KidPlaced(t.kids, k, descs, base);
        var more := Traverse(Kid(t.kids, k), KidBase(t.kids, k, base), children[k], nest + 1);
        visited := visited + more;
        k := k + 1;
      }
    }
  }

  /** The last tree of a forest is one of its children, and its commands may be the earliest. */
  lemma LastCounts(rest: Forest, first: nat)
    requires rest.Grown?
    ensures Width(rest) == Width(rest.before) + 1
    ensures EarliestOf(rest, first) == EarliestOf(rest.before, Least(first, Earliest(rest.last)))
  {}

  lemma BareCounts(first: nat)
    ensures Width(Bare) == 0 && EarliestOf(Bare, first) == first && Post(Bare) == []
  {}

  /** The array with one more node behind its children. */
  lemma NodeAppended(f: Forest, kids: Forest, own: nat, index: nat, custom: bool)
    ensures Post(Grown(f, Node(kids, own, index, custom))) ==
      Post(f) + Post(kids) + [Desc(|Post(kids)| + 1, Width(kids), EarliestOf(kids, own), index, custom)]
  {
    hide Width, EarliestOf;
    var t := Node(kids, own, index, custom);
    assert PostTree(t) == Post(kids) + [Own(t)];
    assert Post(Grown(f, t)) == Post(f) + PostTree(t);
  }

  lemma NoNodes(f: Forest)
    ensures |Post(f)| == 0 <==> f == Bare
  {
    if f.Grown? { assert PostTree(f.last)[|PostTree(f.last)| - 1] == Own(f.last); }
  }

  lemma ReversedGrows(s: seq<nat>, x: nat)
    ensures Reversed(s + [x]) == [x] + Reversed(s)
  {}

  lemma RootsBare(base: nat)
    ensures Roots(Bare, base) == []
  {}

  lemma SliceOfSlice(s: seq<Desc>, base: nat, n: nat, a: nat, b: nat)
    requires a <= b <= n && base + n <= |s|
    ensures s[base..base + n][a..b] == s[base + a..base + b]
  {
    var part := s[base..base + n];
    assert |part[a..b]| == |s[base + a..base + b]|;
    forall i: nat | i < b - a ensures part[a..b][i] == s[base + a..base + b][i] { assert part[a + i] == s[base + (a + i)]; }
  }

  lemma KidPlaced(f: Forest, k: nat, descs: seq<Desc>, base: nat)
    requires k < Width(f) && base + |Post(f)| <= |descs| && descs[base..base + |Post(f)|] == Post(f)
    ensures var at, root := KidBase(f, k, base), Roots(f, base)[k];
      at + |PostTree(Kid(f, k))| == root + 1 <= |descs| && descs[at..root + 1] == PostTree(Kid(f, k)) && Kid(f, k) < f
  {
    hide Post, PostTree, Kid, KidBase, Roots;
    KidAt(f, k, base);
    KidSmaller(f, k);
    var at, root := KidBase(f, k, base), Roots(f, base)[k];
    SliceOfSlice(descs, base, |Post(f)|, at - base, root + 1 - base);
  }

  datatype Visit = Visit(node: nat, nest: nat)

  function Reversed(s: seq<nat>): (r: seq<nat>)
    ensures |r| == |s|
  {
    seq(|s|, i requires 0 <= i < |s| => s[|s| - 1 - i])
  }

  /** The walk over the tree itself: the number of the node, how deep it lies, and then its children's walks. */
  function Preorder(t: Tree, base: nat, nest: nat): seq<Visit> {
    [Visit(base + |Post(t.kids)|, nest)] + if t.custom then [] else PreorderOf(t.kids, base, nest + 1)
  }

  function PreorderOf(f: Forest, base: nat, nest: nat): seq<Visit> {
    if f.Bare? then [] else PreorderOf(f.before, base, nest) + Preorder(f.last, base + |Post(f.before)|, nest)
  }

  /** The numbers of the roots of a forest. */
  function Roots(f: Forest, base: nat): (r: seq<nat>)
    ensures |r| == Width(f)
  {
    if f.Bare? then [] else Roots(f.before, base) + [base + |Post(f.before)| + |Post(f.last.kids)|]
  }

  function Kid(f: Forest, k: nat): Tree
    requires k < Width(f)
  {
    if k == Width(f) - 1 then f.last else Kid(f.before, k)
  }

  function KidBase(f: Forest, k: nat, base: nat): nat
    requires k < Width(f)
  {
    if k == Width(f) - 1 then base + |Post(f.before)| else KidBase(f.before, k, base)
  }

  function PreorderFirst(f: Forest, k: nat, base: nat, nest: nat): seq<Visit>
    requires k <= Width(f)
  {
    if k == 0 then [] else PreorderFirst(f, k - 1, base, nest) + Preorder(Kid(f, k - 1), KidBase(f, k - 1, base), nest)
  }

  /** The last node of a forest is the root of its last tree, and the tree ends there. */
  lemma LastOf(f: Forest, rest: Forest, descs: seq<Desc>, at: nat)
    requires |Post(rest)| > 0
    requires |Post(f)| + |Post(rest)| <= |descs| && descs[..|Post(f)| + |Post(rest)|] == Post(f) + Post(rest) && at == |Post(f)| + |Post(rest)| - 1
    ensures rest.Grown? && descs[at] == Own(rest.last)
    ensures |Post(rest.before)| == |Post(rest)| - Own(rest.last).size
    ensures descs[..|Post(f)| + |Post(rest.before)|] == Post(f) + Post(rest.before)
  {
    PostGrown(rest);
    AppendSplit(Post(f), Post(rest.before), Post(rest.last.kids) + [Own(rest.last)], descs);
    var k := |Post(f)| + |Post(rest)|;
    assert descs[at] == descs[..k][at] == Post(rest)[|Post(rest)| - 1];
  }

  lemma PostGrown(f: Forest)
    requires |Post(f)| > 0
    ensures f.Grown? && Post(f) == Post(f.before) + (Post(f.last.kids) + [Own(f.last)])
    ensures Post(f)[|Post(f)| - 1] == Own(f.last) && Own(f.last).size == |Post(f.last.kids)| + 1
  {}

  lemma AppendSplit(a: seq<Desc>, b: seq<Desc>, c: seq<Desc>, descs: seq<Desc>)
    requires |a| + |b + c| <= |descs| && descs[..|a| + |b + c|] == a + (b + c)
    ensures descs[..|a| + |b|] == a + b
  {
    assert a + (b + c) == a + b + c;
    assert descs[..|a| + |b|] == descs[..|a| + |b + c|][..|a| + |b|];
  }

  lemma NodeAt(t: Tree, descs: seq<Desc>, base: nat, offset: nat)
    requires base + |PostTree(t)| == offset + 1 <= |descs| && descs[base..offset + 1] == PostTree(t)
    ensures descs[offset] == Own(t) && descs[base..offset] == Post(t.kids)
  {
    assert descs[offset] == descs[base..offset + 1][offset - base];
    assert descs[base..offset] == descs[base..offset + 1][..offset - base];
  }

  lemma RootAt(rest: Forest, descs: seq<Desc>, base: nat, child: int)
    requires |Post(rest)| > 0 && base + |Post(rest)| <= |descs| && descs[base..base + |Post(rest)|] == Post(rest)
    requires child == base + |Post(rest)| - 1
    ensures rest.Grown? && descs[child] == Own(rest.last) && base <= child
    ensures |Post(rest.before)| == |Post(rest)| - Own(rest.last).size
    ensures descs[base..base + |Post(rest.before)|] == Post(rest.before)
    ensures Roots(rest, base) == Roots(rest.before, base) + [child]
  {
    assert descs[child] == descs[base..base + |Post(rest)|][child - base];
    assert Post(rest) == Post(rest.before) + Post(rest.last.kids) + [Own(rest.last)];
    assert descs[base..base + |Post(rest.before)|] == descs[base..base + |Post(rest)|][..|Post(rest.before)|];
  }

  /** What one more tree adds to a forest. */
  lemma GrownIs(f: Forest, k: nat, base: nat)
    requires k < Width(f)
    ensures f.Grown? && Width(f) == Width(f.before) + 1 && Post(f) == Post(f.before) + PostTree(f.last)
    ensures Roots(f, base) == Roots(f.before, base) + [base + |Post(f.before)| + |PostTree(f.last)| - 1]
    ensures if k == Width(f) - 1 then Kid(f, k) == f.last && KidBase(f, k, base) == base + |Post(f.before)|
            else Kid(f, k) == Kid(f.before, k) && KidBase(f, k, base) == KidBase(f.before, k, base)
  {}

  /** Where the k-th tree of a forest lies. */
  lemma {:induction false} KidAt(f: Forest, k: nat, base: nat)
    requires k < Width(f)
    ensures var at, t := KidBase(f, k, base), Kid(f, k);
      && base <= at && at + |PostTree(t)| == Roots(f, base)[k] + 1 <= base + |Post(f)|
      && Post(f)[at - base..Roots(f, base)[k] + 1 - base] == PostTree(t)
  {
    hide Width, Post, PostTree, Roots, Kid, KidBase;
    GrownIs(f, k, base);
    if k < Width(f) - 1 { KidAt(f.before, k, base); }
  }

  lemma {:induction false} KidSmaller(f: Forest, k: nat)
    requires k < Width(f)
    ensures Kid(f, k) < f
  {
    if k < Width(f) - 1 { KidSmaller(f.before, k); }
  }

  lemma {:induction false} PreorderFront(f: Forest, k: nat, base: nat, nest: nat)
    requires f.Grown? && k <= Width(f.before)
    ensures PreorderFirst(f, k, base, nest) == PreorderFirst(f.before, k, base, nest)
  {
    if k > 0 { PreorderFront(f, k - 1, base, nest); }
  }

  lemma {:induction false} PreorderAll(f: Forest, base: nat, nest: nat)
    ensures PreorderFirst(f, Width(f), base, nest) == PreorderOf(f, base, nest)
  {
    if f.Grown? {
      PreorderFront(f, Width(f.before), base, nest);
      PreorderAll(f.before, base, nest);
    }
  }

  // --- every node once ---------------------------------------------------------------------------

  predicate Plain(t: Tree) { !t.custom && PlainAll(t.kids) }
  predicate PlainAll(f: Forest) { f.Bare? || (PlainAll(f.before) && Plain(f.last)) }

  function Nodes(vs: seq<Visit>): (r: seq<nat>)
    ensures |r| == |vs|
  {
    seq(|vs|, i requires 0 <= i < |vs| => vs[i].node)
  }

  lemma NodesConcat(a: seq<Visit>, b: seq<Visit>)
    ensures Nodes(a + b) == Nodes(a) + Nodes(b)
  {}

  /** A walk without custom descriptions visits as many nodes as the tree has, and every one of them: each exactly once. */
  lemma {:induction false} WalkVisitsAll(t: Tree, base: nat, nest: nat)
    requires Plain(t)
    ensures |Preorder(t, base, nest)| == |PostTree(t)|
    ensures forall n :: n in Nodes(Preorder(t, base, nest)) <==> base <= n < base + |PostTree(t)|
    decreases t
  {
    ForestVisitsAll(t.kids, base, nest + 1);
    var root := Visit(base + |Post(t.kids)|, nest);
    NodesConcat([root], PreorderOf(t.kids, base, nest + 1));
    assert Nodes([root]) == [root.node];
    assert |PostTree(t)| == |Post(t.kids)| + 1;
  }

  lemma {:induction false} ForestVisitsAll(f: Forest, base: nat, nest: nat)
    requires PlainAll(f)
    ensures |PreorderOf(f, base, nest)| == |Post(f)|
    ensures forall n :: n in Nodes(PreorderOf(f, base, nest)) <==> base <= n < base + |Post(f)|
    decreases f
  {
    if f.Grown? {
      ForestVisitsAll(f.before, base, nest);
      WalkVisitsAll(f.last, base + |Post(f.before)|, nest);
      NodesConcat(PreorderOf(f.before, base, nest), Preorder(f.last, base + |Post(f.before)|, nest));
    }
  }

  /** In `i` to `j` the walk stays deeper than where it was at `i`. */
  predicate Deeper(vs: seq<Visit>, i: nat, j: nat)
    requires j < |vs|
  {
    forall k :: i < k <= j ==> vs[i].nest < vs[k].nest
  }

  /** As children stand before their parents in the array: a later visit is of a node below exactly if its number is smaller. */
  predicate InOrder(vs: seq<Visit>) {
    forall i, j :: 0 <= i < j < |vs| ==> (vs[j].node < vs[i].node <==> Deeper(vs, i, j))
  }

  predicate Within(vs: seq<Visit>, base: nat, size: nat, nest: nat) {
    (vs != [] ==> vs[0].nest == nest) && forall i :: 0 <= i < |vs| ==> base <= vs[i].node < base + size && vs[i].nest >= nest
  }

  /** The walk goes from a node to the nodes below it, and from one child to the next behind it, at one more than its depth. */
  lemma {:induction false} WalkInOrder(t: Tree, base: nat, nest: nat)
    ensures Within(Preorder(t, base, nest), base, |PostTree(t)|, nest) && InOrder(Preorder(t, base, nest))
    decreases t
  {
    hide InOrder, Within, PreorderOf;
    var vs := if t.custom then [] else PreorderOf(t.kids, base, nest + 1);
    if t.custom { NoneInOrder(base, |Post(t.kids)|, nest + 1); } else { WalksInOrder(t.kids, base, nest + 1); }
    assert |PostTree(t)| == |Post(t.kids)| + 1;
    RootInFront(Visit(base + |Post(t.kids)|, nest), vs, base, nest);
  }

  lemma NoneInOrder(base: nat, size: nat, nest: nat)
    ensures Within([], base, size, nest) && InOrder([])
  {}

  lemma DeeperBehind(a: seq<Visit>, b: seq<Visit>, i: nat, j: nat)
    requires i <= j < |b|
    ensures Deeper(a + b, |a| + i, |a| + j) <==> Deeper(b, i, j)
  {
    var all, n := a + b, |a|;
    assert forall k :: 0 <= k < |b| ==> all[n + k] == b[k];
    if Deeper(all, n + i, n + j) {
      forall k | i < k <= j ensures b[i].nest < b[k].nest { assert all[n + i].nest < all[n + k].nest; }
    }
    if Deeper(b, i, j) {
      forall k | n + i < k <= n + j ensures all[n + i].nest < all[k].nest { assert b[i].nest < b[k - n].nest; }
    }
  }

  lemma DeeperInFront(a: seq<Visit>, b: seq<Visit>, i: nat, j: nat)
    requires i <= j < |a|
    ensures Deeper(a + b, i, j) <==> Deeper(a, i, j)
  {
    assert forall k :: 0 <= k < |a| ==> (a + b)[k] == a[k];
  }

  lemma RootInFront(root: Visit, vs: seq<Visit>, base: nat, nest: nat)
    requires base <= root.node && root.nest == nest && Within(vs, base, root.node - base, nest + 1) && InOrder(vs)
    ensures Within([root] + vs, base, root.node - base + 1, nest) && InOrder([root] + vs)
  {
    var all := [root] + vs;
    forall i, j | 0 <= i < j < |all| ensures all[j].node < all[i].node <==> Deeper(all, i, j) {
      if i > 0 {
        DeeperBehind([root], vs, i - 1, j - 1);
        assert vs[j - 1].node < vs[i - 1].node <==> Deeper(vs, i - 1, j - 1);
      }
    }
  }

  lemma {:induction false} WalksInOrder(f: Forest, base: nat, nest: nat)
    ensures Within(PreorderOf(f, base, nest), base, |Post(f)|, nest) && InOrder(PreorderOf(f, base, nest))
    decreases f
  {
    hide InOrder, Within, Preorder, PostTree;
    if f.Grown? {
      WalksInOrder(f.before, base, nest);
      WalkInOrder(f.last, base + |Post(f.before)|, nest);
      OneBehind(PreorderOf(f.before, base, nest), Preorder(f.last, base + |Post(f.before)|, nest), base, |Post(f.before)|, |PostTree(f.last)|, nest);
    } else {
      NoneInOrder(base, 0, nest);
    }
  }

  lemma OneBehind(a: seq<Visit>, b: seq<Visit>, base: nat, n: nat, m: nat, nest: nat)
    requires Within(a, base, n, nest) && Within(b, base + n, m, nest) && InOrder(a) && InOrder(b)
    ensures Within(a + b, base, n + m, nest) && InOrder(a + b)
  {
    hide Deeper, Within;
    forall i, j | 0 <= i < j < |a + b| ensures (a + b)[j].node < (a + b)[i].node <==> Deeper(a + b, i, j) {
      PairBehind(a, b, base, n, m, nest, i, j);
    }
    SidesWithin(a, b, base, n, m, nest);
  }

  lemma SidesWithin(a: seq<Visit>, b: seq<Visit>, base: nat, n: nat, m: nat, nest: nat)
    requires Within(a, base, n, nest) && Within(b, base + n, m, nest)
    ensures Within(a + b, base, n + m, nest)
  {}

  lemma PairBehind(a: seq<Visit>, b: seq<Visit>, base: nat, n: nat, m: nat, nest: nat, i: nat, j: nat)
    requires Within(a, base, n, nest) && Within(b, base + n, m, nest) && InOrder(a) && InOrder(b) && i < j < |a + b|
    ensures (a + b)[j].node < (a + b)[i].node <==> Deeper(a + b, i, j)
  {
    hide Deeper;
    if i >= |a| {
      DeeperBehind(a, b, i - |a|, j - |a|);
      assert b[j - |a|].node < b[i - |a|].node <==> Deeper(b, i - |a|, j - |a|);
    } else if j < |a| {
      DeeperInFront(a, b, i, j);
      assert a[j].node < a[i].node <==> Deeper(a, i, j);
    } else {
      NotDeeper(a + b, i, j, |a|);
    }
  }

  lemma NotDeeper(vs: seq<Visit>, i: nat, j: nat, k: nat)
    requires i < k <= j < |vs| && vs[k].nest <= vs[i].nest
    ensures !Deeper(vs, i, j)
  {}

  /** The first command of a node is the least of its own and those of all nodes below it. */
  lemma {:induction false} EarliestIsLeast(t: Tree)
    ensures Earliest(t) <= t.start && forall d :: d in Post(t.kids) ==> Earliest(t) <= d.start
    ensures Earliest(t) == t.start || exists d :: d in Post(t.kids) && d.start == Earliest(t)
    decreases t
  {
    EarliestOfIsLeast(t.kids, t.start);
  }

  lemma {:induction false} EarliestOfIsLeast(f: Forest, start: nat)
    ensures EarliestOf(f, start) <= start && forall d :: d in Post(f) ==> EarliestOf(f, start) <= d.start
    ensures EarliestOf(f, start) == start || exists d :: d in Post(f) && d.start == EarliestOf(f, start)
    decreases f
  {
    if f.Grown? {
      EarliestIsLeast(f.last);
      EarliestOfIsLeast(f.before, Least(start, Earliest(f.last)));
      var own := Own(f.last);
      assert own in [own] && own.start == Earliest(f.last);
      assert Post(f) == Post(f.before) + Post(f.last.kids) + [own];
      assert forall d :: d in Post(f) <==> d in Post(f.before) || d in Post(f.last.kids) || d in [own];
    }
  }

  // --- the index over commands --------------------------------------------------------------------------

  predicate Encloses(d: Desc, i: nat) { d.start <= i <= d.index }

  function Span(d: Desc): int { d.index - d.start }

  /** The first of the nodes before `k` that encloses the command with the least span. */
  ghost predicate Innermost(descs: seq<Desc>, k: nat, i: nat, best: Option<nat>)
    requires k <= |descs|
  {
    match best
    case None => forall j :: 0 <= j < k ==> !Encloses(descs[j], i)
    case Some(b) =>
      && b < k && Encloses(descs[b], i)
      && (forall j :: 0 <= j < k && Encloses(descs[j], i) ==> Span(descs[b]) <= Span(descs[j]))
      && (forall j :: 0 <= j < b && Encloses(descs[j], i) ==> Span(descs[b]) < Span(descs[j]))
  }

  /** A node is listed at its first command if its range is not that one command. */
  predicate Listed(d: Desc, i: nat) { d.start == i && d.start != d.index }

  /** The listed nodes before `k`, in ascending order. */
  function ListedAt(descs: seq<Desc>, k: nat, i: nat): seq<nat>
    requires k <= |descs|
  {
    if k == 0 then [] else ListedAt(descs, k - 1, i) + if Listed(descs[k - 1], i) then [k - 1] else []
  }

  lemma {:induction false} ListedAtIs(descs: seq<Desc>, k: nat, i: nat)
    requires k <= |descs|
    ensures forall n: nat :: n in ListedAt(descs, k, i) <==> n < k && Listed(descs[n], i)
    ensures forall a, b :: 0 <= a < b < |ListedAt(descs, k, i)| ==> ListedAt(descs, k, i)[a] < ListedAt(descs, k, i)[b]
  {
    if k > 0 {
      ListedAtIs(descs, k - 1, i);
      var front, last := ListedAt(descs, k - 1, i), if Listed(descs[k - 1], i) then [k - 1] else [];
      assert ListedAt(descs, k, i) == front + last;
      assert forall a :: 0 <= a < |front| ==> front[a] in front;
      forall n: nat ensures n in front + last <==> n < k && Listed(descs[n], i) {
        assert n in front <==> n < k - 1 && Listed(descs[n], i);
        assert n in last <==> n == k - 1 && Listed(descs[k - 1], i);
      }
    }
  }

  /** Exactly the nodes listed at the command, in ascending order. */
  ghost predicate Lists(descs: seq<Desc>, i: nat, part: seq<nat>) {
    && (forall n: nat :: n in part <==> n < |descs| && Listed(descs[n], i))
    && (forall a, b :: 0 <= a < b < |part| ==> part[a] < part[b])
  }

  lemma ListsListed(descs: seq<Desc>, i: nat)
    ensures Lists(descs, i, ListedAt(descs, |descs|, i))
  {
    ListedAtIs(descs, |descs|, i);
  }

  function CountAt(descs: seq<Desc>, k: nat, i: nat): nat
    requires k <= |descs|
  {
    |ListedAt(descs, k, i)|
  }

  /** How many listed nodes start before command `i`. */
  function CountBefore(descs: seq<Desc>, i: nat): nat {
    if i == 0 then 0 else CountBefore(descs, i - 1) + CountAt(descs, |descs|, i - 1)
  }

  /** Every slot of a range of the table is the start of a later range or past its end. */
  lemma {:induction false} CountsGrow(descs: seq<Desc>, i: nat, j: nat)
    requires i <= j
    ensures CountBefore(descs, i) <= CountBefore(descs, j)
    ensures i < j ==> CountBefore(descs, i) + CountAt(descs, |descs|, i) <= CountBefore(descs, j)
  {
    if i < j { CountsGrow(descs, i, j - 1); }
  }

  lemma {:induction false} CountsPart(descs: seq<Desc>, k: nat, i: nat)
    requires k <= |descs|
    ensures CountAt(descs, k, i) <= CountAt(descs, |descs|, i)
    ensures k < |descs| && Listed(descs[k], i) ==> CountAt(descs, k, i) < CountAt(descs, |descs|, i)
    decreases |descs| - k
  {
    if k < |descs| { CountsPart(descs, k + 1, i); }
  }

  /** The part of the table for one command holds the nodes listed there so far. */
  ghost predicate Holds(descs: seq<Desc>, k: nat, i: nat, nodes: seq<nat>, from: nat, end: nat)
    requires k <= |descs|
  {
    from <= end <= |nodes| && nodes[from..end] == ListedAt(descs, k, i)
  }

  /** Placing the next node extends the part of its own command and touches no other. */
  lemma PlaceNode(descs: seq<Desc>, k: nat, nodes: seq<nat>, i: nat, from: nat, end: nat, at: nat)
    requires k < |descs| && Holds(descs, k, i, nodes, from, end) && at < |nodes|
    requires if Listed(descs[k], i) then at == end else at < from || end <= at
    ensures Holds(descs, k + 1, i, nodes[at := k], from, if Listed(descs[k], i) then end + 1 else end)
  {
    if Listed(descs[k], i) {
      assert nodes[at := k][from..end + 1] == nodes[from..end] + [k];
    } else {
      assert nodes[at := k][from..end] == nodes[from..end];
    }
  }

  /** The next free place of a command lies in its own range. */
  lemma FreePlace(descs: seq<Desc>, k: nat, i: nat, j: nat)
    requires k < |descs| && Listed(descs[k], j)
    ensures var at := CountBefore(descs, j) + CountAt(descs, k, j);
      if i == j then at < CountBefore(descs, j + 1) else at < CountBefore(descs, i) || CountBefore(descs, i) + CountAt(descs, k, i) <= at
  {
    CountsPart(descs, k, j);
    CountsPart(descs, k, i);
    if i < j { CountsGrow(descs, i, j); } else if j < i { CountsGrow(descs, j, i); }
  }

  class Index {
    var cmdNode: seq<Option<nat>>
    var offsets: seq<nat>
    var nodes: seq<nat>

    constructor () {}

    /**
      Builds both tables for `count` commands: the innermost node of each command, and, by a
      counting sort, the nodes listed at each command.
    */
    method Build(descs: seq<Desc>, count: nat)
      modifies this
      ensures |cmdNode| == count && forall i: nat :: i < count ==> Innermost(descs, |descs|, i, cmdNode[i])
      ensures |offsets| == count + 1 && offsets[0] == 0 && offsets[count] == |nodes|
      ensures forall i: nat {:trigger offsets[i]} :: i < count ==> offsets[i] <= offsets[i + 1] <= |nodes| && Lists(descs, i, nodes[offsets[i]..offsets[i + 1]])
    {
      BuildInnermost(descs, count);
      BuildOffsets(descs, count);
      Scatter(descs, count);
      hide Lists;
      CountBeforeNone(descs);
      forall i: nat {:trigger offsets[i]} | i < count ensures offsets[i] <= offsets[i + 1] <= |nodes| && Lists(descs, i, nodes[offsets[i]..offsets[i + 1]]) {
        assert Holds(descs, |descs|, i, nodes, offsets[i], offsets[i + 1]);
        ListsListed(descs, i);
      }
    }

    method BuildInnermost(descs: seq<Desc>, count: nat)
      modifies this`cmdNode
      ensures |cmdNode| == count && forall i: nat :: i < count ==> Innermost(descs, |descs|, i, cmdNode[i])
    {
      cmdNode := seq(count, i => None);
      var bestSpan: seq<Option<nat>> := seq(count, i => None);
      var node := 0;
      while node < |descs|
        invariant node <= |descs| && |cmdNode| == |bestSpan| == count
        invariant forall i: nat :: i < count ==> Innermost(descs, node, i, cmdNode[i]) && Spanned(descs, cmdNode[i], bestSpan[i])
      {
        var d := descs[node];
        if d.start <= d.index {
          var span := d.index - d.start;
          var i := d.start;
          while i <= d.index && i < count
            invariant d.start <= i && |cmdNode| == |bestSpan| == count
            invariant forall j: nat :: j < count ==> Spanned(descs, cmdNode[j], bestSpan[j])
            invariant forall j: nat :: j < count ==> Innermost(descs, if d.start <= j < i then node + 1 else node, j, cmdNode[j])
            decreases count - i
          {
            if bestSpan[i] == None || span < bestSpan[i].value {
              bestSpan := bestSpan[i := Some(span)];
              cmdNode := cmdNode[i := Some(node)];
            }
            i := i + 1;
          }
        }
        node := node + 1;
      }
    }

    /** The number of listed nodes at each command, summed up. */
    method BuildOffsets(descs: seq<Desc>, count: nat)
      modifies this`offsets
      ensures |offsets| == count + 1 && forall i: nat :: i <= count ==> offsets[i] == CountBefore(descs, i)
    {
      hide CountAt, CountBefore;
      offsets := seq(count + 1, i => 0);
      forall i: nat | i < count ensures CountAt(descs, 0, i) == 0 { CountNone(descs, i); }
      CountBeforeNone(descs);
      var node := 0;
      while node < |descs|
        invariant node <= |descs| && |offsets| == count + 1 && offsets[0] == 0
        invariant forall i: nat {:trigger offsets[i]} :: 1 <= i <= count ==> offsets[i] == CountAt(descs, node, i - 1)
      {
        var d := descs[node];
        forall i: nat | i < count ensures CountAt(descs, node + 1, i) == CountAt(descs, node, i) + if Listed(d, i) then 1 else 0 { CountStep(descs, node, i); }
        if d.start < count && d.start != d.index { offsets := offsets[d.start + 1 := offsets[d.start + 1] + 1]; }
        node := node + 1;
      }
      var i := 1;
      while i < |offsets|
        invariant 1 <= i <= |offsets| == count + 1
        invariant forall j: nat :: j < i ==> offsets[j] == CountBefore(descs, j)
        invariant forall j: nat {:trigger offsets[j]} :: i <= j <= count ==> offsets[j] == CountAt(descs, |descs|, j - 1)
      {
        CountsNext(descs, i - 1);
        offsets := offsets[i := offsets[i] + offsets[i - 1]];
        i := i + 1;
      }
    }

    /** Every listed node goes to the next free place of its command's range. */
    method Scatter(descs: seq<Desc>, count: nat)
      requires |offsets| == count + 1 && forall i: nat :: i <= count ==> offsets[i] == CountBefore(descs, i)
      modifies this`nodes
      ensures |nodes| == offsets[count]
      ensures forall i: nat {:trigger offsets[i]} :: i < count ==> Holds(descs, |descs|, i, nodes, offsets[i], offsets[i + 1])
    {
      hide CountBefore, CountAt, Holds;
      nodes := seq(offsets[count], i => 0);
      var cursor := offsets;
      var node := 0;
      forall i: nat | i < count ensures Holds(descs, 0, i, nodes, offsets[i], cursor[i]) && CountAt(descs, 0, i) == 0 { HoldsNone(descs, i, count, nodes); }
      while node < |descs|
        invariant node <= |descs| && |cursor| == count + 1 && |nodes| == offsets[count]
        invariant forall i: nat :: i < count ==> cursor[i] == offsets[i] + CountAt(descs, node, i)
        invariant forall i: nat :: i < count ==> Holds(descs, node, i, nodes, offsets[i], cursor[i])
      {
        var d := descs[node];
        if d.start < count && d.start != d.index {
          var at := cursor[d.start];
          PlaceFits(descs, node, d.start, count);
          forall i: nat | i < count
            ensures Holds(descs, node + 1, i, nodes[at := node], offsets[i], if i == d.start then cursor[i] + 1 else cursor[i])
            ensures CountAt(descs, node + 1, i) == CountAt(descs, node, i) + if i == d.start then 1 else 0
          {
            FreePlace(descs, node, i, d.start);
            PlaceNode(descs, node, nodes, i, offsets[i], cursor[i], at);
            CountStep(descs, node, i);
          }
          nodes := nodes[at := node];
          cursor := cursor[d.start := at + 1];
        } else {
          forall i: nat | i < count
            ensures Holds(descs, node + 1, i, nodes, offsets[i], cursor[i]) && CountAt(descs, node + 1, i) == CountAt(descs, node, i)
          {
            CountStep(descs, node, i);
            HoldsStill(descs, node, i, nodes, offsets[i], cursor[i]);
          }
        }
        node := node + 1;
      }
      forall i: nat | i < count ensures Holds(descs, |descs|, i, nodes, offsets[i], offsets[i + 1]) { CountsNext(descs, i); }
    }
  }

  lemma HoldsNone(descs: seq<Desc>, i: nat, count: nat, nodes: seq<nat>)
    requires i < count && |nodes| == CountBefore(descs, count)
    ensures Holds(descs, 0, i, nodes, CountBefore(descs, i), CountBefore(descs, i)) && CountAt(descs, 0, i) == 0
  {
    CountsGrow(descs, i, count);
  }

  lemma PlaceFits(descs: seq<Desc>, k: nat, i: nat, count: nat)
    requires k < |descs| && i < count && Listed(descs[k], i)
    ensures CountBefore(descs, i) + CountAt(descs, k, i) < CountBefore(descs, count)
  {
    CountsPart(descs, k, i);
    CountsGrow(descs, i, count);
  }

  lemma CountNone(descs: seq<Desc>, i: nat)
    ensures CountAt(descs, 0, i) == 0
  {}

  lemma CountBeforeNone(descs: seq<Desc>)
    ensures CountBefore(descs, 0) == 0
  {}

  lemma CountStep(descs: seq<Desc>, k: nat, i: nat)
    requires k < |descs|
    ensures CountAt(descs, k + 1, i) == CountAt(descs, k, i) + if Listed(descs[k], i) then 1 else 0
  {}

  lemma HoldsStill(descs: seq<Desc>, k: nat, i: nat, nodes: seq<nat>, from: nat, end: nat)
    requires k < |descs| && Holds(descs, k, i, nodes, from, end) && !Listed(descs[k], i)
    ensures Holds(descs, k + 1, i, nodes, from, end)
  {}

  lemma CountsNext(descs: seq<Desc>, i: nat)
    ensures CountBefore(descs, i + 1) == CountBefore(descs, i) + CountAt(descs, |descs|, i)
  {}

  predicate Spanned(descs: seq<Desc>, node: Option<nat>, span: Option<nat>) {
    match node
    case None => span == None
    case Some(n) => n < |descs| && span.Some? && span.value == Span(descs[n])
  }
}
