/**
  Implicit conversions: a registry of weighted edges between types, and the search for the
  cheapest chain. Costs beyond the 32-bit range saturate at one more than its maximum.
*/
module Conversions {
  import opened Machine

  datatype Edge = Edge(source: nat, target: nat, cost: nat, fn: nat)

  type Graph = map<nat, seq<Edge>>

  const CAP: nat := 0x8000_0000

  function Saturate(x: nat): nat { if x > CAP then CAP else x }

  function EdgesOf(g: Graph, t: nat): seq<Edge> { if t in g then g[t] else [] }

  /** Edges are stored under the type they start from, one for each target. */
  ghost predicate Registry(g: Graph) {
    && (forall t, k :: t in g && 0 <= k < |g[t]| ==> g[t][k].source == t && g[t][k].cost <= INT32_MAX)
    && (forall t, j, k :: t in g && 0 <= j < k < |g[t]| ==> g[t][j].target != g[t][k].target)
  }

  /** A chain of registered edges from `a` to `b`. */
  predicate Chain(g: Graph, a: nat, p: seq<Edge>, b: nat)
    decreases |p|
  {
    if p == [] then a == b
    else
      var e := p[|p| - 1];
      e in EdgesOf(g, e.source) && e.target == b && Chain(g, a, p[..|p| - 1], e.source)
  }

  function Cost(p: seq<Edge>): nat {
    if p == [] then 0 else Cost(p[..|p| - 1]) + p[|p| - 1].cost
  }

  datatype Found = Path(cost: nat, edges: seq<Edge>) | TooCostly | NoPath

  /** A discovered way to a type: an entry of the worklist. */
  datatype Node = Node(name: nat, cost: nat, edges: seq<Edge>)

  /** Every type the graph mentions. */
  function Targets(es: seq<Edge>): set<nat> { set k | 0 <= k < |es| :: es[k].target }

  function Universe(g: Graph, from: nat): set<nat> {
    {from} + g.Keys + set t, x | t in g && x in Targets(g[t]) :: x
  }

  // --- what the search knows -------------------------------------------------------------------

  /** An entry is a chain, at its saturated cost, and never cheaper than the best known. */
  ghost predicate NodeOk(g: Graph, from: nat, best: map<nat, nat>, n: Node) {
    && Chain(g, from, n.edges, n.name) && n.cost == Saturate(Cost(n.edges))
    && n.name in best && best[n.name] <= n.cost
  }

  /** A type not expanded yet has an entry at its best cost. */
  ghost predicate Pending(best: map<nat, nat>, open: seq<Node>, t: nat)
    requires t in best
  {
    exists k :: 0 <= k < |open| && open[k].name == t && open[k].cost == best[t]
  }

  /** Every edge of `t` has been offered to its target. */
  ghost predicate Offered(g: Graph, best: map<nat, nat>, t: nat, count: nat)
    requires t in best && count <= |EdgesOf(g, t)|
  {
    forall k :: 0 <= k < count ==>
      EdgesOf(g, t)[k].target in best && best[EdgesOf(g, t)[k].target] <= Saturate(best[t] + EdgesOf(g, t)[k].cost)
  }

  ghost predicate NodesOk(g: Graph, from: nat, best: map<nat, nat>, open: seq<Node>) {
    forall k :: 0 <= k < |open| ==> NodeOk(g, from, best, open[k])
  }

  ghost predicate Waiting(best: map<nat, nat>, open: seq<Node>, done: set<nat>) {
    forall t {:trigger Pending(best, open, t)} :: t in best && t !in done ==> Pending(best, open, t)
  }

  ghost predicate AllOffered(g: Graph, best: map<nat, nat>, done: set<nat>) {
    forall t :: t in done ==> t in best && Offered(g, best, t, |EdgesOf(g, t)|)
  }

  /** No entry is cheaper than an expanded type. */
  ghost predicate Settled(best: map<nat, nat>, open: seq<Node>, done: set<nat>) {
    forall t, k :: t in done && t in best && 0 <= k < |open| ==> best[t] <= open[k].cost
  }

  ghost predicate Known(g: Graph, from: nat, best: map<nat, nat>) {
    from in best && best[from] == 0 && best.Keys <= Universe(g, from)
  }

  /** The invariant of the search; `done` are the types expanded so far. */
  ghost predicate Searching(g: Graph, from: nat, best: map<nat, nat>, open: seq<Node>, done: set<nat>) {
    && Known(g, from, best) && NodesOk(g, from, best, open) && Waiting(best, open, done)
    && AllOffered(g, best, done) && Settled(best, open, done)
  }

  lemma SaturateAdd(a: nat, b: nat)
    ensures Saturate(Saturate(a) + b) == Saturate(a + b)
  {}

  /** Along any chain either everything is expanded and the best is no dearer, or it leaves through a pending type that is no dearer. */
  lemma {:induction false} ChainBound(g: Graph, from: nat, best: map<nat, nat>, open: seq<Node>, done: set<nat>, p: seq<Edge>, b: nat)
    requires Searching(g, from, best, open, done) && Chain(g, from, p, b)
    ensures (b in best && best[b] <= Saturate(Cost(p))) || (exists k :: 0 <= k < |open| && open[k].cost <= Saturate(Cost(p)))
    decreases |p|
  {
    if p != [] {
      var e, init := p[|p| - 1], p[..|p| - 1];
      ChainBound(g, from, best, open, done, init, e.source);
      SaturateAdd(Cost(init), e.cost);
      if e.source in best && best[e.source] <= Saturate(Cost(init)) {
        if e.source in done {
          assert Offered(g, best, e.source, |EdgesOf(g, e.source)|);
          var k :| 0 <= k < |EdgesOf(g, e.source)| && EdgesOf(g, e.source)[k] == e;
        } else {
          assert Pending(best, open, e.source);
        }
      }
    }
  }

  /** The cheapest entry is the cheapest chain, of any chain that ends where it does. */
  lemma CheapestIsBest(g: Graph, from: nat, best: map<nat, nat>, open: seq<Node>, done: set<nat>, i: nat, p: seq<Edge>)
    requires Searching(g, from, best, open, done) && i < |open| && open[i].cost == best[open[i].name]
    requires forall k :: 0 <= k < |open| ==> open[i].cost <= open[k].cost
    requires Chain(g, from, p, open[i].name)
    ensures open[i].cost <= Saturate(Cost(p))
  {
    ChainBound(g, from, best, open, done, p, open[i].name);
  }

  /** With no entry left, every reachable type is known. */
  lemma ExhaustedIsAll(g: Graph, from: nat, best: map<nat, nat>, done: set<nat>, p: seq<Edge>, b: nat)
    requires Searching(g, from, best, [], done) && Chain(g, from, p, b)
    ensures b in done
  {
    ChainBound(g, from, best, [], done, p, b);
    assert b !in done ==> Pending(best, [], b);
  }

  lemma TargetKnown(g: Graph, from: nat, t: nat, k: nat)
    requires t in g && k < |g[t]|
    ensures g[t][k].target in Universe(g, from)
  {
    assert g[t][k].target in Targets(g[t]);
  }

  // --- the search ----------------------------------------------------------------------------------

  /** The first entry of least cost. */
  method Cheapest(open: seq<Node>) returns (i: nat)
    requires open != []
    ensures i < |open| && forall k :: 0 <= k < |open| ==> open[i].cost <= open[k].cost
    ensures forall k :: 0 <= k < i ==> open[i].cost < open[k].cost
  {
    i := 0;
    for k := 1 to |open|
      invariant i < k
      invariant forall j :: 0 <= j < k ==> open[i].cost <= open[j].cost
      invariant forall j :: 0 <= j < i ==> open[i].cost < open[j].cost
    {
      if open[k].cost < open[i].cost { i := k; }
    }
  }

  /** While the edges of `cur` are offered: everything but `cur` itself is as in `Searching`. */
  ghost predicate Expanding(g: Graph, from: nat, best: map<nat, nat>, open: seq<Node>, done: set<nat>, cur: Node, count: nat) {
    && Known(g, from, best) && NodesOk(g, from, best, open) && Waiting(best, open, done + {cur.name})
    && AllOffered(g, best, done) && Settled(best, open, done) && Settled(best, [cur], done)
    && NodeOk(g, from, best, cur) && cur.cost == best[cur.name] && (forall k :: 0 <= k < |open| ==> cur.cost <= open[k].cost)
    && count <= |EdgesOf(g, cur.name)| && Offered(g, best, cur.name, count)
  }

  lemma RemovedAt(open: seq<Node>, i: nat)
    requires i < |open|
    ensures var rest := open[..i] + open[i + 1..];
      && (forall k :: 0 <= k < |open| && k != i ==> rest[if k < i then k else k - 1] == open[k])
      && (forall k :: 0 <= k < |rest| ==> rest[k] == open[if k < i then k else k + 1])
  {}

  lemma WaitingWithout(best: map<nat, nat>, open: seq<Node>, done: set<nat>, i: nat, except: set<nat>)
    requires Waiting(best, open, done) && i < |open| && open[i].name in best
    requires open[i].cost == best[open[i].name] ==> open[i].name in except
    ensures Waiting(best, open[..i] + open[i + 1..], done + except)
  {
    var rest := open[..i] + open[i + 1..];
    RemovedAt(open, i);
    forall t | t in best && t !in done + except ensures Pending(best, rest, t) {
      assert Pending(best, open, t);
      var k :| 0 <= k < |open| && open[k].name == t && open[k].cost == best[t];
      assert rest[if k < i then k else k - 1] == open[k];
    }
  }

  /** Popping the cheapest entry starts its expansion. */
  lemma StartsExpanding(g: Graph, from: nat, best: map<nat, nat>, open: seq<Node>, done: set<nat>, i: nat)
    requires Searching(g, from, best, open, done) && i < |open| && open[i].name in best && open[i].cost == best[open[i].name]
    requires forall k :: 0 <= k < |open| ==> open[i].cost <= open[k].cost
    ensures Expanding(g, from, best, open[..i] + open[i + 1..], done, open[i], 0)
  {
    hide Known, Waiting, AllOffered, NodeOk;
    RemovedAt(open, i);
    WaitingWithout(best, open, done, i, {open[i].name});
  }

  /** An entry dearer than the best known is stale and can go. */
  lemma DropsStale(g: Graph, from: nat, best: map<nat, nat>, open: seq<Node>, done: set<nat>, i: nat)
    requires Searching(g, from, best, open, done) && i < |open| && open[i].name in best && open[i].cost != best[open[i].name]
    ensures Searching(g, from, best, open[..i] + open[i + 1..], done)
  {
    hide Known, Waiting, AllOffered, NodeOk;
    RemovedAt(open, i);
    WaitingWithout(best, open, done, i, {});
    assert done + {} == done;
  }

  lemma EdgeChain(g: Graph, from: nat, cur: Node, k: nat)
    requires Chain(g, from, cur.edges, cur.name) && cur.cost == Saturate(Cost(cur.edges)) && k < |EdgesOf(g, cur.name)| && Registry(g)
    ensures var e := EdgesOf(g, cur.name)[k];
      Chain(g, from, cur.edges + [e], e.target) && Saturate(cur.cost + e.cost) == Saturate(Cost(cur.edges + [e]))
  {
    var e := EdgesOf(g, cur.name)[k];
    assert (cur.edges + [e])[..|cur.edges|] == cur.edges;
    SaturateAdd(Cost(cur.edges), e.cost);
  }

  /** An edge whose target is already known at no more than the new cost changes nothing. */
  lemma SkipsEdge(g: Graph, from: nat, best: map<nat, nat>, open: seq<Node>, done: set<nat>, cur: Node, k: nat)
    requires Expanding(g, from, best, open, done, cur, k) && k < |EdgesOf(g, cur.name)|
    requires var e := EdgesOf(g, cur.name)[k]; e.target in best && best[e.target] <= Saturate(cur.cost + e.cost)
    ensures Expanding(g, from, best, open, done, cur, k + 1)
  {}

  // Giving a type a lower best and a new entry.

  lemma NodesStay(g: Graph, from: nat, best: map<nat, nat>, open: seq<Node>, node: Node)
    requires NodesOk(g, from, best, open) && (node.name in best ==> best[node.name] > node.cost)
    requires Chain(g, from, node.edges, node.name) && node.cost == Saturate(Cost(node.edges))
    ensures NodesOk(g, from, best[node.name := node.cost], open + [node])
  {}

  lemma WaitingStays(best: map<nat, nat>, open: seq<Node>, done: set<nat>, node: Node)
    requires Waiting(best, open, done)
    ensures Waiting(best[node.name := node.cost], open + [node], done)
  {
    var better, longer := best[node.name := node.cost], open + [node];
    assert longer[|open|] == node;
    forall t | t in better && t !in done ensures Pending(better, longer, t) {
      if t != node.name {
        assert Pending(best, open, t);
        var j :| 0 <= j < |open| && open[j].name == t && open[j].cost == best[t];
        assert longer[j] == open[j];
      }
    }
  }

  lemma OffersStay(g: Graph, best: map<nat, nat>, t: nat, count: nat, node: Node)
    requires t in best && count <= |EdgesOf(g, t)| && Offered(g, best, t, count) && t != node.name
    requires node.name in best ==> best[node.name] > node.cost
    ensures Offered(g, best[node.name := node.cost], t, count)
  {}

  lemma AllOffersStay(g: Graph, best: map<nat, nat>, done: set<nat>, node: Node)
    requires AllOffered(g, best, done) && node.name !in done && (node.name in best ==> best[node.name] > node.cost)
    ensures AllOffered(g, best[node.name := node.cost], done)
  {
    forall t | t in done ensures Offered(g, best[node.name := node.cost], t, |EdgesOf(g, t)|) { OffersStay(g, best, t, |EdgesOf(g, t)|, node); }
  }

  /** An edge that is cheaper than anything known gives its target a new best and a new entry. */
  lemma TakesEdge(g: Graph, from: nat, best: map<nat, nat>, open: seq<Node>, done: set<nat>, cur: Node, k: nat)
    requires Expanding(g, from, best, open, done, cur, k) && k < |EdgesOf(g, cur.name)| && Registry(g)
    requires var e := EdgesOf(g, cur.name)[k]; e.target in best ==> best[e.target] > Saturate(cur.cost + e.cost)
    ensures var e := EdgesOf(g, cur.name)[k];
      var cost := Saturate(cur.cost + e.cost);
      Expanding(g, from, best[e.target := cost], open + [Node(e.target, cost, cur.edges + [e])], done, cur, k + 1)
  {
    hide NodesOk, Waiting, AllOffered, Registry, Offered, Settled, Chain, Cost, Universe;
    var e := EdgesOf(g, cur.name)[k];
    var node := Node(e.target, Saturate(cur.cost + e.cost), cur.edges + [e]);
    EdgeChain(g, from, cur, k);
    CapBounds(g, cur.edges, from, cur);
    TargetKnown(g, from, cur.name, k);
    NotSettled(g, best, open, done, cur, node);
    NodesStay(g, from, best, open, node);
    WaitingStays(best, open, done + {cur.name}, node);
    AllOffersStay(g, best, done, node);
    OffersStay(g, best, cur.name, k, node);
    SettledStays(best, open, done, cur, node);
    OffersOneMore(g, best[node.name := node.cost], cur.name, k);
  }

  lemma SettledStays(best: map<nat, nat>, open: seq<Node>, done: set<nat>, cur: Node, node: Node)
    requires Settled(best, open, done) && Settled(best, [cur], done) && node.name !in done && cur.cost <= node.cost
    ensures Settled(best[node.name := node.cost], open + [node], done) && Settled(best[node.name := node.cost], [cur], done)
  {
    forall t, k | t in done && t in best && 0 <= k < |open + [node]| ensures best[t] <= (open + [node])[k].cost {
      assert best[t] <= [cur][0].cost;
    }
  }

  lemma OffersOneMore(g: Graph, best: map<nat, nat>, t: nat, k: nat)
    requires t in best && k < |EdgesOf(g, t)| && Offered(g, best, t, k)
    requires var e := EdgesOf(g, t)[k]; e.target in best && best[e.target] <= Saturate(best[t] + e.cost)
    ensures Offered(g, best, t, k + 1)
  {}

  lemma SettledAt(best: map<nat, nat>, done: set<nat>, cur: Node, t: nat)
    requires Settled(best, [cur], done) && t in done && t in best
    ensures best[t] <= cur.cost
  {
    assert [cur][0] == cur;
  }

  /** A type that gets cheaper was not expanded yet. */
  lemma NotSettled(g: Graph, best: map<nat, nat>, open: seq<Node>, done: set<nat>, cur: Node, node: Node)
    requires AllOffered(g, best, done) && Settled(best, [cur], done) && cur.name in best && cur.cost == best[cur.name] && cur.cost <= node.cost
    requires node.name in best ==> best[node.name] > node.cost
    ensures node.name !in done && node.name != cur.name
  {
    forall t | t in done && t in best ensures best[t] <= cur.cost { SettledAt(best, done, cur, t); }
  }

  lemma CapBounds(g: Graph, p: seq<Edge>, from: nat, cur: Node)
    requires cur.cost == Saturate(Cost(p))
    ensures cur.cost <= CAP
  {}

  /** The edges of a type expanded before have nothing new to offer. */
  lemma FreshlyExpanded(g: Graph, from: nat, best: map<nat, nat>, open: seq<Node>, done: set<nat>, cur: Node, k: nat)
    requires Expanding(g, from, best, open, done, cur, k) && k < |EdgesOf(g, cur.name)|
    requires var e := EdgesOf(g, cur.name)[k]; e.target in best ==> best[e.target] > Saturate(cur.cost + e.cost)
    ensures cur.name !in done
  {
    assert !Offered(g, best, cur.name, |EdgesOf(g, cur.name)|);
  }

  /** With every edge offered, the type is done. */
  lemma FinishesExpanding(g: Graph, from: nat, best: map<nat, nat>, open: seq<Node>, done: set<nat>, cur: Node)
    requires Expanding(g, from, best, open, done, cur, |EdgesOf(g, cur.name)|)
    ensures Searching(g, from, best, open, done + {cur.name})
  {
    hide NodesOk, Waiting, Known;
  }

  /** The entry the search ends on decides. */
  lemma Decides(g: Graph, from: nat, target: nat, cur: Node)
    requires Chain(g, from, cur.edges, target) && cur.cost == Saturate(Cost(cur.edges))
    requires forall p :: Chain(g, from, p, target) ==> cur.cost <= Saturate(Cost(p))
    ensures !(forall p :: !Chain(g, from, p, target))
    ensures if cur.cost > INT32_MAX then forall p :: Chain(g, from, p, target) ==> Cost(p) > INT32_MAX
            else Cost(cur.edges) == cur.cost && forall p :: Chain(g, from, p, target) ==> cur.cost <= Cost(p)
    ensures cur.cost <= INT32_MAX ==> !(forall p :: Chain(g, from, p, target) ==> Cost(p) > INT32_MAX)
  {}

  /** Edges to other targets stay, an edge to the same target is replaced. */
  lemma ReplacedEdges(g: Graph, edge: Edge, k: nat, changed: seq<Edge>)
    requires Registry(g) && edge.cost <= INT32_MAX && k <= |EdgesOf(g, edge.source)|
    requires forall j :: 0 <= j < k ==> EdgesOf(g, edge.source)[j].target != edge.target
    requires var edges := EdgesOf(g, edge.source);
      if k < |edges| then edges[k].target == edge.target && changed == edges[k := edge] else changed == edges + [edge]
    ensures Registry(g[edge.source := changed])
    ensures forall e :: e in changed <==> e == edge || (e.target != edge.target && e in EdgesOf(g, edge.source))
  {
    var edges := EdgesOf(g, edge.source);
    assert changed[k] == edge;
    forall e ensures e in changed <==> e == edge || (e.target != edge.target && e in edges) {
      if e in edges && e.target != edge.target {
        var j :| 0 <= j < |edges| && edges[j] == e;
        assert changed[j] == e;
      }
    }
  }

  class Conversions {
    var graph: Graph

    constructor ()
      ensures graph == map[] && Registry(graph)
    {
      graph := map[];
    }

    /** Registers an edge; registering a pair again replaces it in place, so ties keep their order. */
    method Register(edge: Edge)
      requires Registry(graph) && edge.cost <= INT32_MAX
      modifies this
      ensures Registry(graph) && graph.Keys == old(graph).Keys + {edge.source}
      ensures forall t :: t in old(graph) && t != edge.source ==> graph[t] == old(graph)[t]
      ensures edge in graph[edge.source]
      ensures forall e :: e in graph[edge.source] <==> e == edge || (e.target != edge.target && e in EdgesOf(old(graph), edge.source))
    {
      var edges := if edge.source in graph then graph[edge.source] else [];
      var k := 0;
      while k < |edges| && edges[k].target != edge.target
        invariant k <= |edges| && forall j :: 0 <= j < k ==> edges[j].target != edge.target
      {
        k := k + 1;
      }
      var changed := if k < |edges| then edges[k := edge] else edges + [edge];
      ReplacedEdges(graph, edge, k, changed);
      graph := graph[edge.source := changed];
    }

    /**
      The cheapest chain of conversions. Entries are taken by cost; an entry that has been
      overtaken is dropped; a type is entered again only at a lower cost.
    */
    method FindPath(from: nat, target: nat) returns (r: Found)
      requires Registry(graph)
      ensures r.Path? ==> Chain(graph, from, r.edges, target) && Cost(r.edges) == r.cost <= INT32_MAX
      ensures r.Path? ==> forall p :: Chain(graph, from, p, target) ==> r.cost <= Cost(p)
      ensures r.TooCostly? <==> (exists p :: Chain(graph, from, p, target)) && (forall p :: Chain(graph, from, p, target) ==> Cost(p) > INT32_MAX)
      ensures r.NoPath? <==> forall p :: !Chain(graph, from, p, target)
    {
      var open := [Node(from, 0, [])];
      var best: map<nat, nat> := map[from := 0];
      ghost var done: set<nat> := {};
      assert Pending(best, open, from) by { assert open[0].name == from; }
      while open != []
        invariant Searching(graph, from, best, open, done) && target !in done
        decreases Universe(graph, from) - done, |open|
      {
        var i := Cheapest(open);
        var cur := open[i];
        ghost var before := open;
        if cur.cost != best[cur.name] {
          DropsStale(graph, from, best, open, done, i);
          open := open[..i] + open[i + 1..];
        } else if cur.name == target {
          forall p | Chain(graph, from, p, target) ensures cur.cost <= Saturate(Cost(p)) {
            CheapestIsBest(graph, from, best, open, done, i, p);
          }
          Decides(graph, from, target, cur);
          return if cur.cost > INT32_MAX then TooCostly else Path(cur.cost, cur.edges);
        } else {
          StartsExpanding(graph, from, best, open, done, i);
          open := open[..i] + open[i + 1..];
          open, best := Expand(from, cur, open, best, done);
          done := done + {cur.name};
        }
      }
      forall p ensures !Chain(graph, from, p, target) {
        if Chain(graph, from, p, target) { ExhaustedIsAll(graph, from, best, done, p, target); }
      }
      return NoPath;
    }

    /** Offers every edge of the entry to its target. A type expanded before takes none. */
    method Expand(from: nat, cur: Node, open: seq<Node>, best: map<nat, nat>, ghost done: set<nat>) returns (open': seq<Node>, best': map<nat, nat>)
      requires Registry(graph) && Expanding(graph, from, best, open, done, cur, 0)
      ensures Searching(graph, from, best', open', done + {cur.name})
      ensures cur.name in done ==> open' == open
    {
      hide Known, NodesOk, Waiting, AllOffered, Settled, Offered, NodeOk, Registry;
      open', best' := open, best;
      if cur.name in graph {
        var edges := graph[cur.name];
        for k := 0 to |edges|
          invariant Expanding(graph, from, best', open', done, cur, k)
          invariant cur.name in done ==> open' == open
        {
          var e := edges[k];
          var cost := if cur.cost + e.cost > INT32_MAX then INT32_MAX + 1 else cur.cost + e.cost;
          if e.target in best' && best'[e.target] <= cost {
            SkipsEdge(graph, from, best', open', done, cur, k);
          } else {
            FreshlyExpanded(graph, from, best', open', done, cur, k);
            TakesEdge(graph, from, best', open', done, cur, k);
            open', best' := open' + [Node(e.target, cost, cur.edges + [e])], best'[e.target := cost];
          }
        }
      }
      FinishesExpanding(graph, from, best', open', done, cur);
    }
  }
}
